# Plate-review screen: a Dafny model

This project models the pure logic of the plate-review screen of a
Brazilian licence-plate detection front end, and the path rewrite of its
development proxy.

The screen keeps three pieces of state: the selected media file, the list of
plate detections under review, and the list of vehicle records shown. The
user picks a file, captures (a mock that yields two fixed detections),
corrects or removes detections, and confirms (a mock that turns each
detection into a fixed vehicle record carrying its plate). Confirming is only
possible while every plate passes the plate validator. The validator accepts
the old format `ABC1234` and the Mercosur format `ABC1D23`. The development
proxy forwards `/api_placa...` requests and strips the leading `/api_placa`
from the path.

Modules:

- `Ascii`: the `[A-Z]`, `[a-z]` and `\d` classes, and ASCII upper-casing.
- `Regex`: the regex fragment `plateRegex` is written in. This is an anchored
  alternation of branches, each branch a sequence of character classes with
  exact repeat counts. It has a matcher and a pointwise characterisation.
- `Plate`: `plateRegex` as data. `IsValidPlate` is the validator written as an
  explicit predicate on characters, and the module proves it equivalent to
  the regex.
- `Detections`: the `PlateDetection` record and the list operations. Removal
  is `filter`, editing is `map` and the validity check is `every`.
- `Review`: the vehicle record, the screen `State` and one pure transition per
  handler. It also has the screen's events, including the disabled buttons,
  and an invariant proved for every reachable state.
- `DevProxy`: `String.prototype.replace` with a literal pattern, optionally
  anchored, and the proxy's `rewrite` function built from it.

Three behaviours of the code are worth knowing:

- Editing or removing a detection leaves `vehicles` as it was, so a stale
  vehicle stays on screen (`Review.EditsKeepStaleVehicles`,
  `Review.StaleVehicleAfterEdit`).
- Capture and verify are mocks: they make no remote call and produce no
  per-candidate failure record.
- Capture replaces the detections but does not clear `vehicles`. Only
  choosing a new file clears both lists.

## Model

| member | source | states |
|---|---|---|
| `Ascii.ToUpperChar` | login.tsx:114 | the result is never a lower-case letter; a lower-case ASCII letter becomes its upper-case partner (32 code points lower); any other character is unchanged |
| `Ascii.ToUpper` | login.tsx:114 | upper-casing keeps the length and upper-cases each character in place |
| `Ascii.ToUpperHasNoLower` | login.tsx:114 | an upper-cased string contains no lower-case ASCII letter |
| `Ascii.ToUpperFixesUpperCase` | login.tsx:114 | a string without lower-case letters is unchanged by upper-casing |
| `Ascii.ToUpperIdempotent` | login.tsx:114 | upper-casing twice equals upper-casing once |
| `Regex.MatchBranchPointwise` | login.tsx:32 | a branch of exact-count classes matches a string iff the string has the branch's expanded length and each character is in the class at its position |
| `Regex.TestIffSomeBranch` | login.tsx:32 | an anchored alternation matches iff one of its branches matches the whole string |
| `Regex.Test` | login.tsx:32 | an anchored alternation that matches has a branch matching the whole string, and a match of its first branch is a match |
| `Plate.IsValidPlate` | login.tsx:31-32 | a string the validator accepts has length 7 and consists of upper-case ASCII letters and digits |
| `Plate.OldFormatShape` | login.tsx:32 | `[A-Z]{3}\d{4}` matches exactly 7-character strings of three upper-case letters and then four digits |
| `Plate.MercosurFormatShape` | login.tsx:32 | `[A-Z]{3}\d[A-Z]\d{2}` matches exactly 7-character strings of three letters, a digit, a letter and two digits |
| `Plate.ValidPlateIffRegex` | login.tsx:31-32 | the explicit validator accepts a string iff `plateRegex.test` does, in both directions |
| `Plate.FormatsDisjoint` | login.tsx:31-32 | no string is both an old-format and a Mercosur plate |
| `Plate.ValidPlateIsUpperCase` | login.tsx:32 | a valid plate is unchanged by upper-casing |
| `Plate.Examples` | login.tsx:32 | `ABC1234` and `ABC1D23` are accepted; `abc1234`, `AB1234`, `ABC12345` and `ABCD123` are rejected |
| `Detections.RemoveDetection` | login.tsx:109-111 | no survivor has the removed id, survivors come from the input, every other entry survives, and the list never grows |
| `Detections.UpdatePlate` | login.tsx:113-116 | same length and positions; entries with the id keep id and image and get the upper-cased input as plate; every other entry is unchanged |
| `Detections.EveryPlateValid` | login.tsx:118 | true iff every plate in the list passes the validator |
| `Detections.RemoveKeepsOrder` | login.tsx:110 | the survivors of a removal are a subsequence of the input, so their relative order is kept |
| `Detections.RemoveOverConcat` | login.tsx:110 | removal distributes over concatenation, so each part is filtered in place |
| `Detections.RemoveAbsent` | login.tsx:110 | removing an id no entry carries leaves the list unchanged |
| `Detections.RemoveIdempotent` | login.tsx:109-111 | removing the same id twice equals removing it once |
| `Detections.RemoveKeepsDistinct` | login.tsx:110 | removal keeps ids pairwise distinct |
| `Detections.RemoveAtUnique` | login.tsx:110 | when only position k carries the id, removal yields the list without exactly position k |
| `Detections.RemoveAtDistinct` | login.tsx:109-111 | with distinct ids, removing the id at position k yields the list without exactly position k |
| `Detections.UpdateKeepsIds` | login.tsx:115 | editing keeps the sequence of ids |
| `Detections.UpdateKeepsDistinct` | login.tsx:115 | editing keeps ids pairwise distinct |
| `Detections.UpdateIdempotent` | login.tsx:113-116 | repeating an edit changes nothing further |
| `Detections.UpdateOverrides` | login.tsx:113-116 | a later edit of the same id overrides an earlier one |
| `Detections.RemoveAfterUpdate` | login.tsx:109-116 | editing an entry and then removing it equals just removing it |
| `Detections.UpdateRemoveCommute` | login.tsx:109-116 | an edit and a removal of different ids commute |
| `Detections.UpdateKeepsEveryValid` | login.tsx:113-118 | on a list of valid plates, an edit keeps every plate valid iff the upper-cased input is valid or no entry has the edited id |
| `Review.WithPlaca` | login.tsx:99-105 | the spread record carries the given plate and agrees with the base on every other field |
| `Review.OmitWithPlaca` | login.tsx:99-105 | a vehicle record is its base with its own plate put back |
| `Review.HandleFileChange` | login.tsx:71-77 | with a first file, the file is selected and both lists are emptied; with a null or empty file list the state is unchanged |
| `Review.HandleCapture` | login.tsx:80-94 | with no file, or when reading the file fails, the state is unchanged; otherwise there are exactly two detections, ids 1 and 2, plates `INT8C36` and `XYZ1234`, both with the data URL read; file and vehicles are kept |
| `Review.MockVehicles` | login.tsx:105 | one vehicle per detection, in order, each with that detection's plate and the base record's other fields |
| `Review.HandleVerify` | login.tsx:97-107 | with no detections the state is unchanged; otherwise `vehicles[i].placa == detections[i].plate` for each i and every other field equals the fixed base; file and detections are kept |
| `Review.RemoveDetection` | login.tsx:109-111 | file and vehicles are unchanged; no detection has the removed id, every other detection survives, and the survivors keep their order |
| `Review.UpdatePlate` | login.tsx:113-116 | file and vehicles are unchanged; each detection with the id gets the upper-cased input as plate and keeps its other fields; every other detection is unchanged |
| `Review.AllValid` | login.tsx:118 | `allValid` iff the list is non-empty and every plate is valid; false on an empty list |
| `Review.CaptureEnablesVerify` | login.tsx:90-93 | after a capture with a file selected, `allValid` holds |
| `Review.VerifyIdempotent` | login.tsx:97-107 | confirming twice equals confirming once |
| `Review.EditsKeepStaleVehicles` | login.tsx:109-116 | edits and removals leave `vehicles` as it was |
| `Review.Enabled` | login.tsx:163-201 | confirming is enabled iff `allValid` holds; capturing is enabled iff a file is selected; removing, editing and choosing files are never disabled |
| `Review.StepKeepsInv` | login.tsx:163-201 | each user event preserves the invariant: ids distinct, lists non-empty only after a file was chosen, every shown vehicle plate valid |
| `Review.RunKeepsInv` | login.tsx:71-118 | every sequence of user events preserves the invariant |
| `Review.ReachableInv` | login.tsx:42-44 | every state reachable from the initial empty state satisfies the invariant |
| `Review.StaleVehicleAfterEdit` | login.tsx:113-116 | after choose, capture, confirm and an edit of the first plate, the first vehicle still shows `INT8C36` while the detection reads `ABC1D23` |
| `DevProxy.Search` | vite.config.ts:14 | the result is the leftmost occurrence of the literal at or after the start index, or none if there is no occurrence |
| `DevProxy.FirstMatch` | vite.config.ts:14 | the result is where the pattern first matches; an anchored pattern matches only at index 0 |
| `DevProxy.Replace` | vite.config.ts:14 | without a match the string is unchanged; with a match at i the prefix before i is kept, the replacement follows, and putting the matched literal back in its place gives the original string |
| `DevProxy.Rewrite` | vite.config.ts:14 | a path starting with `/api_placa` loses exactly that prefix, and putting the prefix back gives the path; any other path is unchanged |
| `DevProxy.RewriteIsSuffix` | vite.config.ts:14 | the rewritten path is a suffix of the request path and never longer |
| `DevProxy.RewriteOnlyLeading` | vite.config.ts:14 | `/x/api_placa` is unchanged; `/api_placa/api_placa/y` becomes `/api_placa/y`, so the rewrite is not idempotent |
| `DevProxy.UnanchoredWouldStripLater` | vite.config.ts:14 | without `^` the same replace would turn `/x/api_placa` into `/x` |
| `DevProxy.RewriteNoSegmentBoundary` | vite.config.ts:14 | `/api_placaX` becomes `X` and `/api_placa` becomes the empty path |

## Left out

- `handleLogin` (login.tsx:48-68) is left out. It is a hard-coded credential check, AES encryption by a library and a `fetch` to `/authorize`: foreign calls and network I/O.
- Reading the file as a data URL (login.tsx:82-89) is asynchronous browser I/O. `Review.HandleCapture` takes the outcome of the read as a parameter: the data URL, or `None` when the reader reports an error.
- `handleCapture` is modelled as one atomic step. In the code, state can change while the file is being read. For example, a new file can be chosen, and the mock detections then land on the new selection. Interleaving is not modelled.
- src/App.tsx is left out: a `fetch` upload, an `alert` and rendering, with no pure logic.
- JSX rendering, dark mode and CSS class choice (login.tsx:120-247) are left out. The markup's two `disabled` conditions (login.tsx:163, 201) are modelled as `Review.Enabled`.
- tailwind.config.js is left out. In vite.config.ts, the plugin list and the proxy target are left out; only the `rewrite` function is modelled.
- `Ascii.ToUpper`: only ASCII letters are upper-cased. JavaScript's `toUpperCase` also maps non-ASCII letters, can change the length (`ß` becomes `SS`), and can turn a non-ASCII letter into an ASCII one (U+0131 becomes `I`). So an input the real screen would accept after upper-casing can be rejected in the model.
- Strings are sequences of Unicode scalar values, whereas JavaScript strings are UTF-16 code units. The validator and the rewrite only compare against ASCII, so this matters only for lengths of non-ASCII text, which the model never relies on.
- `DevProxy.Replace`: the replacement string is inserted literally. JavaScript expands `$&`, `$'`, `` $` `` and `$$` in it. The proxy only passes the empty string, so its rewrite is not affected.
- Detection ids are JavaScript numbers and are modelled as integers. `NaN` and `-0` are not modelled; the screen only ever assigns the ids 1 and 2.
- Real detection and lookup calls, per-candidate failure records, and dropping stale vehicles on edit or removal are not modelled, because the code has none of them.
