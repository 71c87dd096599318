/** The list of categories the store holds, and the two merges the reducer
    computes by expression over it: the filter applied when a delete succeeds
    and the map applied when an update succeeds. */
module CategoryList {

  /** A category's identifier; `==` here is JavaScript's strict `===`. */
  type Id(==)

  /** Every field of a category other than its id; passed through untouched. */
  type Fields

  datatype Category = Category(id: Id, fields: Fields)

  /** No two entries of `s` share an id. */
  ghost predicate UniqueIds(s: seq<Category>)
  {
    forall i, j :: 0 <= i < j < |s| ==> s[i].id != s[j].id
  }

  /** Some entry of `s` has id `id`. */
  ghost predicate HasId(s: seq<Category>, id: Id)
  {
    exists k :: 0 <= k < |s| && s[k].id == id
  }

  /** `r` is `s` with some entries dropped and the rest kept in order. */
  ghost predicate IsSubsequence(r: seq<Category>, s: seq<Category>)
  {
    if r == [] then true
    else if s == [] then false
    else if r[0] == s[0] then IsSubsequence(r[1..], s[1..])
    else IsSubsequence(r, s[1..])
  }

  // ---------------------------------------------------------------- delete

  /** `s.filter(c => c.id !== id)`: every entry whose id is `id` is dropped. */
  function RemoveById(s: seq<Category>, id: Id): (r: seq<Category>)
    ensures |r| <= |s|
    ensures forall k :: 0 <= k < |r| ==> r[k].id != id
    ensures forall k :: 0 <= k < |r| ==> r[k] in s
  {
    if s == [] then []
    else if s[0].id == id then RemoveById(s[1..], id)
    else [s[0]] + RemoveById(s[1..], id)
  }

  /** The filter keeps the surviving entries in their original order. */
  lemma {:induction false} RemoveByIdIsSubsequence(s: seq<Category>, id: Id)
    ensures IsSubsequence(RemoveById(s, id), s)
  {
    if s != [] {
      RemoveByIdIsSubsequence(s[1..], id);
      var t := RemoveById(s[1..], id);
      if s[0].id == id {
        if t != [] {
          assert t[0].id != id;
        }
      } else {
        assert RemoveById(s, id)[1..] == t;
      }
    }
  }

  /** Each entry survives exactly as often as it occurred, unless its id is
      `id`, in which case it is gone: every non-matching entry survives. */
  lemma {:induction false} RemoveByIdCount(s: seq<Category>, id: Id, c: Category)
    ensures multiset(RemoveById(s, id))[c] == if c.id == id then 0 else multiset(s)[c]
  {
    if s != [] {
      RemoveByIdCount(s[1..], id, c);
      assert s == [s[0]] + s[1..];
    }
  }

  /** The list shrinks exactly when some entry has the deleted id. */
  lemma {:induction false} RemoveByIdShrinksIffMatch(s: seq<Category>, id: Id)
    ensures |RemoveById(s, id)| < |s| <==> HasId(s, id)
  {
    if s != [] {
      RemoveByIdShrinksIffMatch(s[1..], id);
      if HasId(s[1..], id) {
        var k :| 0 <= k < |s[1..]| && s[1..][k].id == id;
        assert s[k + 1].id == id;
      }
      if HasId(s, id) && s[0].id != id {
        var k :| 0 <= k < |s| && s[k].id == id;
        assert s[1..][k - 1].id == id;
      }
    }
  }

  /** When no entry has the deleted id the list is unchanged. */
  lemma {:induction false} RemoveByIdNoMatch(s: seq<Category>, id: Id)
    requires !HasId(s, id)
    ensures RemoveById(s, id) == s
  {
    if s != [] {
      assert s[0].id != id;
      assert !HasId(s[1..], id) by {
        forall k | 0 <= k < |s[1..]| ensures s[1..][k].id != id {
          assert s[1..][k] == s[k + 1];
        }
      }
      RemoveByIdNoMatch(s[1..], id);
      assert s == [s[0]] + s[1..];
    }
  }

  /** Deleting the same id twice removes nothing more. */
  lemma RemoveByIdIdempotent(s: seq<Category>, id: Id)
    ensures RemoveById(RemoveById(s, id), id) == RemoveById(s, id)
  {
    RemoveByIdNoMatch(RemoveById(s, id), id);
  }

  /** The filter never introduces a duplicate id. */
  lemma {:induction false} RemoveByIdKeepsUnique(s: seq<Category>, id: Id)
    requires UniqueIds(s)
    ensures UniqueIds(RemoveById(s, id))
  {
    if s != [] {
      assert UniqueIds(s[1..]) by {
        forall i, j | 0 <= i < j < |s[1..]| ensures s[1..][i].id != s[1..][j].id {
          assert s[1..][i] == s[i + 1] && s[1..][j] == s[j + 1];
        }
      }
      RemoveByIdKeepsUnique(s[1..], id);
      if s[0].id != id {
        var t := RemoveById(s[1..], id);
        forall k | 0 <= k < |t| ensures t[k].id != s[0].id {
          var m :| 0 <= m < |s[1..]| && s[1..][m] == t[k];
          assert s[m + 1] == t[k];
        }
        var r := RemoveById(s, id);
        assert r == [s[0]] + t;
        forall i, j | 0 <= i < j < |r| ensures r[i].id != r[j].id {
          if i == 0 {
            assert r[j] == t[j - 1];
          } else {
            assert r[i] == t[i - 1] && r[j] == t[j - 1];
          }
        }
      }
    }
  }

  // ---------------------------------------------------------------- update

  /** `s.map(c => c.id === u.id ? u : c)`: every entry whose id matches the
      payload's becomes the payload, in its own position. */
  function ReplaceById(s: seq<Category>, u: Category): (r: seq<Category>)
    ensures |r| == |s|
    ensures forall k :: 0 <= k < |s| ==> r[k] == if s[k].id == u.id then u else s[k]
  {
    if s == [] then []
    else [if s[0].id == u.id then u else s[0]] + ReplaceById(s[1..], u)
  }

  /** The ids at every position are those of the old list. */
  lemma ReplaceByIdKeepsIds(s: seq<Category>, u: Category)
    ensures forall k :: 0 <= k < |s| ==> ReplaceById(s, u)[k].id == s[k].id
  {
  }

  /** When no entry has the payload's id the list is unchanged. */
  lemma ReplaceByIdNoMatch(s: seq<Category>, u: Category)
    requires !HasId(s, u.id)
    ensures ReplaceById(s, u) == s
  {
  }

  /** Updating with the same payload twice changes nothing more. */
  lemma ReplaceByIdIdempotent(s: seq<Category>, u: Category)
    ensures ReplaceById(ReplaceById(s, u), u) == ReplaceById(s, u)
  {
  }

  /** The map never introduces a duplicate id... */
  lemma ReplaceByIdKeepsUnique(s: seq<Category>, u: Category)
    requires UniqueIds(s)
    ensures UniqueIds(ReplaceById(s, u))
  {
    ReplaceByIdKeepsIds(s, u);
  }

  /** ...but it does not remove one either: two entries sharing the payload's
      id both become the payload. */
  lemma ReplaceByIdKeepsDuplicates(s: seq<Category>, u: Category, i: nat, j: nat)
    requires i < j < |s| && s[i].id == u.id && s[j].id == u.id
    ensures ReplaceById(s, u)[i] == u && ReplaceById(s, u)[j] == u
    ensures !UniqueIds(ReplaceById(s, u))
  {
  }

  // ---------------------------------------------------------------- create

  /** Appending an entry whose id is already present creates a duplicate:
      create does not check ids. */
  lemma AppendDuplicatesPresentId(s: seq<Category>, c: Category)
    requires HasId(s, c.id)
    ensures !UniqueIds(s + [c])
  {
    var k :| 0 <= k < |s| && s[k].id == c.id;
    assert (s + [c])[k].id == (s + [c])[|s|].id;
  }

  /** Appending an entry whose id is new keeps the ids unique. */
  lemma AppendFreshIdKeepsUnique(s: seq<Category>, c: Category)
    requires UniqueIds(s) && !HasId(s, c.id)
    ensures UniqueIds(s + [c])
  {
    var r := s + [c];
    forall i, j | 0 <= i < j < |r| ensures r[i].id != r[j].id {
      assert r[i] == s[i];
      if j == |s| {
        assert r[j] == c;
      } else {
        assert r[j] == s[j];
      }
    }
  }
}
