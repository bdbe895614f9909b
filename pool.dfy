/** The waiting list: seekers that asked for a partner and found none yet,
    kept in arrival order. */
module Pool {
  import opened Types

  /** One `{sid, interests}` record of the waiting list. Two records are equal
      when both fields are, as Python compares dicts. */
  datatype Entry = Entry(sid: Sid, interests: seq<Interest>)

  /** The interests two seekers share: `set(mine) & set(theirs)`. */
  function Common(mine: seq<Interest>, theirs: seq<Interest>): (c: set<Interest>)
    ensures forall x :: x in c <==> x in mine && x in theirs
  {
    (set x | x in mine) * (set x | x in theirs)
  }

  predicate Overlaps(mine: seq<Interest>, theirs: seq<Interest>)
  {
    Common(mine, theirs) != {}
  }

  /** The index of the entry a first-fit scan of `pool` stops at: the
      earliest entry sharing at least one interest with `interests`. */
  function FirstFit(pool: seq<Entry>, interests: seq<Interest>): (r: Option<nat>)
    ensures r.Some? ==> r.value < |pool| && Overlaps(interests, pool[r.value].interests)
    ensures r.Some? ==> forall j :: 0 <= j < r.value ==> !Overlaps(interests, pool[j].interests)
    ensures r.None? <==> forall j :: 0 <= j < |pool| ==> !Overlaps(interests, pool[j].interests)
  {
    if pool == [] then None
    else if Overlaps(interests, pool[0].interests) then Some(0)
    else
      match FirstFit(pool[1..], interests)
      case None => None
      case Some(k) =>
        assert pool[1..][k] == pool[k + 1];
        Some(k + 1)
  }

  /** A first-fit scan is determined by its characterisation: any index that
      overlaps and is preceded only by disjoint entries is the one it finds. */
  lemma FirstFitUnique(pool: seq<Entry>, interests: seq<Interest>, i: nat)
    requires i < |pool| && Overlaps(interests, pool[i].interests)
    requires forall j :: 0 <= j < i ==> !Overlaps(interests, pool[j].interests)
    ensures FirstFit(pool, interests) == Some(i)
  {
  }

  /** `list.remove(e)`: drop the first element equal to `e`. */
  function RemoveFirst(pool: seq<Entry>, e: Entry): seq<Entry>
    requires e in pool
  {
    if pool[0] == e then pool[1..]
    else
      assert e in pool[1..] by { assert pool == [pool[0]] + pool[1..]; }
      [pool[0]] + RemoveFirst(pool[1..], e)
  }

  /** Removing by value an entry that no earlier entry equals deletes exactly
      that position and keeps every other entry in its relative order. */
  lemma {:induction false} RemoveFirstAt(pool: seq<Entry>, i: nat)
    requires i < |pool|
    requires forall j :: 0 <= j < i ==> pool[j] != pool[i]
    ensures RemoveFirst(pool, pool[i]) == pool[..i] + pool[i + 1..]
  {
    if i > 0 {
      var tail := pool[1..];
      assert tail[i - 1] == pool[i];
      forall j | 0 <= j < i - 1 ensures tail[j] != tail[i - 1] {
        assert tail[j] == pool[j + 1];
      }
      RemoveFirstAt(tail, i - 1);
      assert pool[..i] == [pool[0]] + tail[..i - 1];
      assert pool[i + 1..] == tail[i..];
    }
  }

  /** `[u for u in pool if u['sid'] != sid]`. */
  function Without(pool: seq<Entry>, sid: Sid): seq<Entry>
  {
    if pool == [] then []
    else (if pool[0].sid == sid then [] else [pool[0]]) + Without(pool[1..], sid)
  }

  /** The filter keeps exactly the entries of other connections. */
  lemma {:induction false} WithoutMembers(pool: seq<Entry>, sid: Sid)
    ensures forall e :: e in Without(pool, sid) <==> e in pool && e.sid != sid
  {
    if pool != [] {
      WithoutMembers(pool[1..], sid);
      assert pool == [pool[0]] + pool[1..];
    }
  }

  /** The filter works entry by entry, so it keeps the survivors' relative
      order: filtering a concatenation concatenates the filtered parts. */
  lemma {:induction false} WithoutConcat(a: seq<Entry>, b: seq<Entry>, sid: Sid)
    ensures Without(a + b, sid) == Without(a, sid) + Without(b, sid)
  {
    if a == [] {
      assert a + b == b;
    } else {
      var head := if a[0].sid == sid then [] else [a[0]];
      assert (a + b)[0] == a[0];
      assert (a + b)[1..] == a[1..] + b;
      calc {
        Without(a + b, sid);
        head + Without(a[1..] + b, sid);
        { WithoutConcat(a[1..], b, sid); }
        head + (Without(a[1..], sid) + Without(b, sid));
        (head + Without(a[1..], sid)) + Without(b, sid);
        Without(a, sid) + Without(b, sid);
      }
    }
  }

  /** A list without entries for `sid` passes the filter unchanged. */
  lemma {:induction false} WithoutAbsent(pool: seq<Entry>, sid: Sid)
    requires forall j :: 0 <= j < |pool| ==> pool[j].sid != sid
    ensures Without(pool, sid) == pool
  {
    if pool != [] {
      WithoutAbsent(pool[1..], sid);
      assert pool == [pool[0]] + pool[1..];
    }
  }

  /** Filtering twice removes nothing more. */
  lemma WithoutIdempotent(pool: seq<Entry>, sid: Sid)
    ensures Without(Without(pool, sid), sid) == Without(pool, sid)
  {
    var w := Without(pool, sid);
    WithoutMembers(pool, sid);
    forall j | 0 <= j < |w| ensures w[j].sid != sid {
      assert w[j] in w;
    }
    WithoutAbsent(w, sid);
  }
}
