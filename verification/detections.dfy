/**
 The list of plate detections under review and the list operations the
 screen applies to it: `filter` to remove an entry, `map` to edit a plate,
 `every` to check all plates.
 */
module Detections {
  import Ascii
  import Plate

  /** `PlateDetection`: a locally assigned id, the editable plate text and the preview image as a data URL. */
  datatype PlateDetection = PlateDetection(id: int, plate: string, imageUrl: string)

  /** No two entries share an id. */
  predicate DistinctIds(ds: seq<PlateDetection>) {
    forall i, j :: 0 <= i < j < |ds| ==> ds[i].id != ds[j].id
  }

  /** `a` is `b` with some entries dropped and the rest in their original order. */
  predicate IsSubsequence(a: seq<PlateDetection>, b: seq<PlateDetection>)
    decreases |b|
  {
    if a == [] then true
    else if b == [] then false
    else (a[0] == b[0] && IsSubsequence(a[1..], b[1..])) || IsSubsequence(a, b[1..])
  }

  /** `ds.filter(d => d.id !== id)` */
  function RemoveDetection(ds: seq<PlateDetection>, id: int): (r: seq<PlateDetection>)
    ensures |r| <= |ds|
    ensures forall d :: d in r ==> d in ds && d.id != id
    ensures forall d :: d in ds && d.id != id ==> d in r
    decreases |ds|
  {
    if ds == [] then []
    else if ds[0].id != id then [ds[0]] + RemoveDetection(ds[1..], id)
    else RemoveDetection(ds[1..], id)
  }

  /** `ds.map(d => d.id === id ? { ...d, plate: input.toUpperCase() } : d)` */
  function UpdatePlate(ds: seq<PlateDetection>, id: int, input: string): (r: seq<PlateDetection>)
    ensures |r| == |ds|
    ensures forall i :: 0 <= i < |ds| && ds[i].id == id ==>
                          r[i].id == id && r[i].imageUrl == ds[i].imageUrl && r[i].plate == Ascii.ToUpper(input)
    ensures forall i :: 0 <= i < |ds| && ds[i].id != id ==> r[i] == ds[i]
    decreases |ds|
  {
    if ds == [] then []
    else
      var d := ds[0];
      [if d.id == id then d.(plate := Ascii.ToUpper(input)) else d] + UpdatePlate(ds[1..], id, input)
  }

  /** `ds.every(d => plateRegex.test(d.plate))` */
  function EveryPlateValid(ds: seq<PlateDetection>): (b: bool)
    ensures b <==> forall i :: 0 <= i < |ds| ==> Plate.IsValidPlate(ds[i].plate)
    decreases |ds|
  {
    if ds == [] then true
    else Plate.IsValidPlate(ds[0].plate) && EveryPlateValid(ds[1..])
  }

  /** The ids of the entries, in order. */
  function Ids(ds: seq<PlateDetection>): (ids: seq<int>)
    ensures |ids| == |ds|
    ensures forall i :: 0 <= i < |ds| ==> ids[i] == ds[i].id
    decreases |ds|
  {
    if ds == [] then [] else [ds[0].id] + Ids(ds[1..])
  }

  // ----- removal -----

  /** Removal keeps the survivors in their original relative order. */
  lemma {:induction false} RemoveKeepsOrder(ds: seq<PlateDetection>, id: int)
    ensures IsSubsequence(RemoveDetection(ds, id), ds)
    decreases |ds|
  {
    if ds != [] {
      RemoveKeepsOrder(ds[1..], id);
      var r := RemoveDetection(ds, id);
      if ds[0].id != id {
        assert r[0] == ds[0] && r[1..] == RemoveDetection(ds[1..], id);
      } else {
        assert r == RemoveDetection(ds[1..], id);
        if r != [] {
          assert IsSubsequence(r, ds[1..]);
        }
      }
    }
  }

  /** Removal splits over concatenation, so each part is filtered independently and in place. */
  lemma {:induction false} RemoveOverConcat(a: seq<PlateDetection>, b: seq<PlateDetection>, id: int)
    ensures RemoveDetection(a + b, id) == RemoveDetection(a, id) + RemoveDetection(b, id)
    decreases |a|
  {
    if a == [] {
      assert a + b == b;
    } else {
      assert (a + b)[0] == a[0];
      assert (a + b)[1..] == a[1..] + b;
      RemoveOverConcat(a[1..], b, id);
    }
  }

  /** An id that no entry carries removes nothing. */
  lemma {:induction false} RemoveAbsent(ds: seq<PlateDetection>, id: int)
    requires forall i :: 0 <= i < |ds| ==> ds[i].id != id
    ensures RemoveDetection(ds, id) == ds
    decreases |ds|
  {
    if ds != [] {
      RemoveAbsent(ds[1..], id);
      assert [ds[0]] + ds[1..] == ds;
    }
  }

  /** Removing the same id twice is removing it once. */
  lemma RemoveIdempotent(ds: seq<PlateDetection>, id: int)
    ensures RemoveDetection(RemoveDetection(ds, id), id) == RemoveDetection(ds, id)
  {
  }

  /** A subsequence of a list with distinct ids has distinct ids. */
  lemma {:induction false} SubsequenceKeepsDistinct(a: seq<PlateDetection>, b: seq<PlateDetection>)
    requires IsSubsequence(a, b) && DistinctIds(b)
    ensures DistinctIds(a)
    ensures forall x :: x in a ==> x in b
    decreases |b|
  {
    if a != [] {
      assert b != [];
      assert DistinctIds(b[1..]) by {
        forall i, j | 0 <= i < j < |b[1..]| ensures b[1..][i].id != b[1..][j].id {
          assert b[1..][i] == b[i + 1] && b[1..][j] == b[j + 1];
        }
      }
      if a[0] == b[0] && IsSubsequence(a[1..], b[1..]) {
        SubsequenceKeepsDistinct(a[1..], b[1..]);
        forall x | x in a ensures x in b {
          if x != a[0] {
            assert x in a[1..];
          }
        }
        forall i, j | 0 <= i < j < |a| ensures a[i].id != a[j].id {
          if i == 0 {
            assert a[j] == a[1..][j - 1];
            assert a[j] in b[1..];
            var k :| 0 <= k < |b[1..]| && b[1..][k] == a[j];
            assert b[k + 1] == a[j];
          } else {
            assert a[i] == a[1..][i - 1] && a[j] == a[1..][j - 1];
          }
        }
      } else {
        SubsequenceKeepsDistinct(a, b[1..]);
      }
    }
  }

  /** Removal keeps ids distinct. */
  lemma RemoveKeepsDistinct(ds: seq<PlateDetection>, id: int)
    requires DistinctIds(ds)
    ensures DistinctIds(RemoveDetection(ds, id))
  {
  }

  /** When only the entry at position k carries `id`, removing `id` drops exactly that entry. */
  lemma {:induction false} RemoveAtUnique(ds: seq<PlateDetection>, k: nat, id: int)
    requires k < |ds| && ds[k].id == id
    requires forall i :: 0 <= i < |ds| && i != k ==> ds[i].id != id
    ensures RemoveDetection(ds, id) == ds[..k] + ds[k + 1..]
    decreases k
  {
    var tail := ds[1..];
    if k == 0 {
      forall i | 0 <= i < |tail| ensures tail[i].id != id {
        assert tail[i] == ds[i + 1];
      }
      RemoveAbsent(tail, id);
    } else {
      forall i | 0 <= i < |tail| && i != k - 1 ensures tail[i].id != id {
        assert tail[i] == ds[i + 1];
      }
      RemoveAtUnique(tail, k - 1, id);
      assert ds[..k] == [ds[0]] + tail[..k - 1];
      assert ds[k + 1..] == tail[k..];
    }
  }

  /** With distinct ids, removing the id at position k yields the list without position k. */
  lemma RemoveAtDistinct(ds: seq<PlateDetection>, k: nat)
    requires DistinctIds(ds) && k < |ds|
    ensures RemoveDetection(ds, ds[k].id) == ds[..k] + ds[k + 1..]
  {
    forall i | 0 <= i < |ds| && i != k ensures ds[i].id != ds[k].id {
      if i < k {
        assert ds[i].id != ds[k].id;
      } else {
        assert ds[k].id != ds[i].id;
      }
    }
    RemoveAtUnique(ds, k, ds[k].id);
  }

  // ----- editing -----

  /** Editing never changes the ids or their order. */
  lemma UpdateKeepsIds(ds: seq<PlateDetection>, id: int, input: string)
    ensures Ids(UpdatePlate(ds, id, input)) == Ids(ds)
  {
  }

  /** Editing keeps ids distinct. */
  lemma UpdateKeepsDistinct(ds: seq<PlateDetection>, id: int, input: string)
    requires DistinctIds(ds)
    ensures DistinctIds(UpdatePlate(ds, id, input))
  {
  }

  /** Repeating the same edit changes nothing more. */
  lemma UpdateIdempotent(ds: seq<PlateDetection>, id: int, input: string)
    ensures UpdatePlate(UpdatePlate(ds, id, input), id, input) == UpdatePlate(ds, id, input)
  {
  }

  /** A later edit of the same entry overrides an earlier one. */
  lemma UpdateOverrides(ds: seq<PlateDetection>, id: int, first: string, second: string)
    ensures UpdatePlate(UpdatePlate(ds, id, first), id, second) == UpdatePlate(ds, id, second)
  {
  }

  /** Editing an entry and then removing it is the same as just removing it. */
  lemma {:induction false} RemoveAfterUpdate(ds: seq<PlateDetection>, id: int, input: string)
    ensures RemoveDetection(UpdatePlate(ds, id, input), id) == RemoveDetection(ds, id)
    decreases |ds|
  {
    if ds != [] {
      RemoveAfterUpdate(ds[1..], id, input);
      var u := UpdatePlate(ds, id, input);
      assert u[1..] == UpdatePlate(ds[1..], id, input);
    }
  }

  /** Edits and removals of different entries commute. */
  lemma {:induction false} UpdateRemoveCommute(ds: seq<PlateDetection>, edited: int, removed: int, input: string)
    requires edited != removed
    ensures RemoveDetection(UpdatePlate(ds, edited, input), removed)
         == UpdatePlate(RemoveDetection(ds, removed), edited, input)
    decreases |ds|
  {
    if ds != [] {
      UpdateRemoveCommute(ds[1..], edited, removed, input);
      var u := UpdatePlate(ds, edited, input);
      assert u[1..] == UpdatePlate(ds[1..], edited, input);
      if ds[0].id != removed {
        var r := RemoveDetection(ds, removed);
        assert r[1..] == RemoveDetection(ds[1..], removed);
      }
    }
  }

  /**
   On a list whose plates are all valid, an edit keeps them all valid iff the
   upper-cased input is a valid plate or no entry carries the edited id.
   */
  lemma UpdateKeepsEveryValid(ds: seq<PlateDetection>, id: int, input: string)
    requires EveryPlateValid(ds)
    ensures EveryPlateValid(UpdatePlate(ds, id, input)) <==>
              Plate.IsValidPlate(Ascii.ToUpper(input)) || forall i :: 0 <= i < |ds| ==> ds[i].id != id
  {
  }
}
