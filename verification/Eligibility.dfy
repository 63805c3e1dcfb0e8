/**
 The eligibility collection of the review service: `handle_event` upserts one
 entry per product of a delivered order. The fold of those upserts is the same
 whether messages arrive once or, in log order per partition, many times.
 */
module Eligibility {
  import opened ConsumerLoop

  /** The document id, one per user and product. */
  datatype Key = Key(user: string, product: string)
  datatype Stamp = Stamp(order: nat, deliveredAt: int)
  datatype Entry = Entry(stamp: Stamp, reviewed: bool)
  type Entries = map<Key, Entry>

  datatype Event = Delivered(user: string, order: nat, deliveredAt: int, products: seq<string>) | Other

  datatype Upsert = Upsert(key: Key, stamp: Stamp)

  /** `$set` the stamp, `$setOnInsert` not reviewed. */
  function Upserted(c: Entries, u: Upsert): Entries {
    c[u.key := Entry(u.stamp, if u.key in c then c[u.key].reviewed else false)]
  }

  function Folded(c: Entries, us: seq<Upsert>): Entries
    decreases |us|
  {
    if us == [] then c else Folded(Upserted(c, us[0]), us[1..])
  }

  function Upserts(e: Event): (us: seq<Upsert>)
    ensures |us| == if e.Delivered? then |e.products| else 0
    ensures forall i | 0 <= i < |us| :: us[i] == Upsert(Key(e.user, e.products[i]), Stamp(e.order, e.deliveredAt))
  {
    if e.Other? then [] else
      seq(|e.products|, i requires 0 <= i < |e.products| => Upsert(Key(e.user, e.products[i]), Stamp(e.order, e.deliveredAt)))
  }

  lemma {:induction false} FoldedAppend(c: Entries, us: seq<Upsert>, vs: seq<Upsert>)
    ensures Folded(c, us + vs) == Folded(Folded(c, us), vs)
    decreases |us|
  {
    if us == [] {
      assert us + vs == vs;
    } else {
      assert (us + vs)[1..] == us[1..] + vs;
      FoldedAppend(Upserted(c, us[0]), us[1..], vs);
    }
  }

  class Collection {
    var entries: Entries

    /** `handle_event`, when the database fails before upsert number `reach`, if there is one. */
    method HandleEvent(e: Event, reach: nat) returns (raised: bool)
      modifies this
      ensures raised <==> reach < |Upserts(e)|
      ensures entries == Folded(old(entries), if raised then Upserts(e)[..reach] else Upserts(e))
    {
      if e.Other? {
        return false;
      }
      ghost var us := Upserts(e);
      ghost var before := entries;
      for i := 0 to |e.products|
        invariant i <= reach
        invariant entries == Folded(before, us[..i])
      {
        if i == reach {
          return true;
        }
        FoldedAppend(before, us[..i], [us[i]]);
        assert us[..i + 1] == us[..i] + [us[i]];
        var key := Key(e.user, e.products[i]);
        var reviewed := if key in entries then entries[key].reviewed else false;
        entries := entries[key := Entry(Stamp(e.order, e.deliveredAt), reviewed)];
      }
      assert us[..|us|] == us;
      raised := false;
    }
  }

  // --------------------------------------------------------- last writer wins

  datatype Last = None | Some(stamp: Stamp)

  /** What the last of the upserts for a key writes. */
  function LastIn(us: seq<Upsert>, k: Key): Last {
    if us == [] then None
    else if LastIn(us[1..], k).Some? then LastIn(us[1..], k)
    else if us[0].key == k then Some(us[0].stamp) else None
  }

  /** The entry for a key holds the last stamp written for it, and is as much reviewed as it was. */
  lemma {:induction false} LastWriterWins(c: Entries, us: seq<Upsert>, k: Key)
    ensures k in Folded(c, us) <==> k in c || LastIn(us, k).Some?
    ensures LastIn(us, k).Some? ==>
              Folded(c, us)[k] == Entry(LastIn(us, k).stamp, if k in c then c[k].reviewed else false)
    ensures LastIn(us, k).None? && k in c ==> Folded(c, us)[k] == c[k]
    decreases |us|
  {
    if us != [] {
      LastWriterWins(Upserted(c, us[0]), us[1..], k);
    }
  }

  lemma SameLastSameFold(c: Entries, us: seq<Upsert>, vs: seq<Upsert>)
    requires forall k: Key :: LastIn(us, k) == LastIn(vs, k)
    ensures Folded(c, us) == Folded(c, vs)
  {
    forall k: Key
      ensures k in Folded(c, us) <==> k in Folded(c, vs)
      ensures k in Folded(c, us) ==> Folded(c, us)[k] == Folded(c, vs)[k]
    {
      LastWriterWins(c, us, k);
      LastWriterWins(c, vs, k);
    }
  }

  // ------------------------------------------------------------- redeliveries

  /** The writes of a sequence of deliveries, each of which writes `w(x)`. */
  function Flat<T>(w: T -> seq<Upsert>, xs: seq<T>): seq<Upsert> {
    if xs == [] then [] else w(xs[0]) + Flat(w, xs[1..])
  }

  /** Each delivery once, where it came last. */
  function LastOnly<T(==,!new)>(xs: seq<T>): (ys: seq<T>)
    ensures forall x :: x in ys <==> x in xs
    ensures forall i, j | 0 <= i < j < |ys| :: ys[i] != ys[j]
  {
    if xs == [] then [] else if xs[0] in xs[1..] then LastOnly(xs[1..]) else [xs[0]] + LastOnly(xs[1..])
  }

  lemma {:induction false} LastInAppend(us: seq<Upsert>, vs: seq<Upsert>, k: Key)
    ensures LastIn(us + vs, k) == if LastIn(vs, k).Some? then LastIn(vs, k) else LastIn(us, k)
    decreases |us|
  {
    if us == [] {
      assert us + vs == vs;
    } else {
      assert (us + vs)[1..] == us[1..] + vs;
      LastInAppend(us[1..], vs, k);
    }
  }

  lemma {:induction false} FlatCovers<T>(w: T -> seq<Upsert>, xs: seq<T>, x: T, k: Key)
    requires x in xs && LastIn(w(x), k).Some?
    ensures LastIn(Flat(w, xs), k).Some?
    decreases |xs|
  {
    LastInAppend(w(xs[0]), Flat(w, xs[1..]), k);
    if x != xs[0] {
      FlatCovers(w, xs[1..], x, k);
    }
  }

  lemma {:induction false} LastOnlyKeepsLast<T(!new)>(w: T -> seq<Upsert>, xs: seq<T>, k: Key)
    ensures LastIn(Flat(w, LastOnly(xs)), k) == LastIn(Flat(w, xs), k)
    decreases |xs|
  {
    if xs != [] {
      LastInAppend(w(xs[0]), Flat(w, xs[1..]), k);
      LastOnlyKeepsLast(w, xs[1..], k);
      if xs[0] in xs[1..] {
        if LastIn(w(xs[0]), k).Some? {
          FlatCovers(w, xs[1..], xs[0], k);
        }
      } else {
        LastInAppend(w(xs[0]), Flat(w, LastOnly(xs[1..])), k);
        assert LastOnly(xs)[0] == xs[0] && LastOnly(xs)[1..] == LastOnly(xs[1..]);
      }
    }
  }

  /** Deliveries can be dropped wherever the same one comes again later. */
  lemma RedeliveriesAbsorbed<T(!new)>(c: Entries, w: T -> seq<Upsert>, xs: seq<T>)
    ensures Folded(c, Flat(w, xs)) == Folded(c, Flat(w, LastOnly(xs)))
  {
    forall k: Key ensures LastIn(Flat(w, LastOnly(xs)), k) == LastIn(Flat(w, xs), k) {
      LastOnlyKeepsLast(w, xs, k);
    }
    SameLastSameFold(c, Flat(w, xs), Flat(w, LastOnly(xs)));
  }

  predicate Pairwise<T>(r: (T, T) -> bool, xs: seq<T>) { forall i, j | 0 <= i < j < |xs| :: r(xs[i], xs[j]) }

  lemma {:induction false} LastOnlyPairwise<T(!new)>(r: (T, T) -> bool, xs: seq<T>)
    requires Pairwise(r, xs)
    ensures Pairwise(r, LastOnly(xs))
    decreases |xs|
  {
    if xs != [] {
      assert Pairwise(r, xs[1..]);
      LastOnlyPairwise(r, xs[1..]);
      forall y | y in LastOnly(xs[1..]) ensures r(xs[0], y) {
        var j :| 0 <= j < |xs[1..]| && xs[1..][j] == y;
        assert r(xs[0], xs[j + 1]);
      }
    }
  }
}
