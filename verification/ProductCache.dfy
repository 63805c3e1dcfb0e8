/**
 Cache-aside reads of the catalog. A reader gets the key, on a miss reads the
 table and sets the key with a TTL; a writer commits a row and then deletes the
 product's key. All of these interleave, the clock moves, anyone may crash.
 */
module ProductCache {
  type Id = string
  datatype Row = Row(price: int, stock: int)
  type Table = map<Id, Row>

  /** `product:{id}`, and one key per page of the product list, which no writer deletes. */
  datatype CacheKey = Product(id: Id) | Listing(limit: nat, offset: nat)
  datatype Value = One(row: Row) | Many(rows: seq<Row>, total: nat)

  /** A cached value, when its table was read and when it was set. */
  datatype Entry = Entry(value: Value, readAt: int, setAt: int)

  /** The table from a moment on. */
  datatype Version = Version(since: int, table: Table)

  datatype Reader =
    | Arrived(key: CacheKey) | Missed(key: CacheKey) | Read(key: CacheKey, value: Value, readAt: int)
    | Replied | NotFound | ReaderCrashed

  /** `Died` writers committed and never delete the key. */
  datatype Writer = Committed(id: Id, at: int) | Deleted(id: Id, at: int) | Died(id: Id, at: int)

  /** A reply: at what time, from the cache or not, and where its value came from. */
  datatype Served = Served(at: int, key: CacheKey, hit: bool, entry: Entry)

  /** `overlap` lets a writer commit between a reader's table read and its SET of the same product. */
  datatype State = State(
    overlap: bool, ttl: int, now: int, ids: seq<Id>, versions: seq<Version>, cache: map<CacheKey, Entry>,
    readers: seq<Reader>, writers: seq<Writer>, served: seq<Served>)

  datatype Step =
    | Tick(d: nat)
    | Arrive(key: CacheKey) | Get(r: nat) | Load(r: nat) | Set(r: nat) | CrashReader(r: nat)
    | Commit(id: Id, row: Row) | Delete(w: nat) | CrashWriter(w: nat)

  function Current(s: State): Table
    requires s.versions != []
  {
    s.versions[|s.versions| - 1].table
  }

  function Smaller(a: nat, b: nat): nat { if a < b then a else b }

  predicate Covers(ids: seq<Id>, table: Table) { forall i | 0 <= i < |ids| :: ids[i] in table }

  datatype Loaded = Nothing | Just(value: Value)

  /** What the table has for a key: a row or none, or a page of rows in id order. */
  function Lookup(ids: seq<Id>, table: Table, key: CacheKey): Loaded
    requires Covers(ids, table)
  {
    match key
    case Product(id) => if id in table then Just(One(table[id])) else Nothing
    case Listing(limit, offset) =>
      var lo := Smaller(offset, |ids|);
      var hi := Smaller(offset + limit, |ids|);
      Just(Many(seq(hi - lo, i requires 0 <= i < hi - lo => table[ids[lo + i]]), |ids|))
  }

  // ---------------------------------------------------------------- the listing

  /** The rows of all products, in id order. */
  function Catalog(ids: seq<Id>, table: Table): seq<Row>
    requires Covers(ids, table)
  {
    seq(|ids|, i requires 0 <= i < |ids| => table[ids[i]])
  }

  /**
   A page holds the rows of the ids from `offset` on, `limit` of them or as many
   as there are, and counts all products.
   */
  lemma PageMeans(ids: seq<Id>, table: Table, limit: nat, offset: nat)
    requires Covers(ids, table)
    ensures var page := Lookup(ids, table, Listing(limit, offset));
            page.Just? && page.value.Many? && page.value.total == |ids| &&
            |page.value.rows| ==
              (if |ids| <= offset then 0 else if |ids| < offset + limit then |ids| - offset else limit) &&
            forall i | 0 <= i < |page.value.rows| :: page.value.rows[i] == table[ids[offset + i]]
  {
  }

  /** The rows of n pages side by side, the first at `offset`. */
  function Pages(ids: seq<Id>, table: Table, limit: nat, offset: nat, n: nat): seq<Row>
    requires Covers(ids, table)
    decreases n
  {
    if n == 0 then []
    else Lookup(ids, table, Listing(limit, offset)).value.rows + Pages(ids, table, limit, offset + limit, n - 1)
  }

  lemma PageIsSlice(ids: seq<Id>, table: Table, limit: nat, offset: nat)
    requires Covers(ids, table) && offset <= |ids|
    ensures Lookup(ids, table, Listing(limit, offset)).value.rows == Catalog(ids, table)[offset..Smaller(offset + limit, |ids|)]
  {
  }

  /** How many rows n pages have room for. */
  function Room(limit: nat, n: nat): nat { if n == 0 then 0 else limit + Room(limit, n - 1) }

  lemma {:induction false} RoomIsProduct(limit: nat, n: nat)
    ensures Room(limit, n) == n * limit
  {
    if n > 0 {
      RoomIsProduct(limit, n - 1);
    }
  }

  /** A full page, followed by the slice after it. */
  lemma PageThenSlice(ids: seq<Id>, table: Table, limit: nat, offset: nat, hi: nat)
    requires Covers(ids, table) && offset + limit <= hi <= |ids|
    ensures Lookup(ids, table, Listing(limit, offset)).value.rows + Catalog(ids, table)[offset + limit..hi]
         == Catalog(ids, table)[offset..hi]
  {
    PageIsSlice(ids, table, limit, offset);
  }

  /** Pages side by side are the catalog from the first offset on, each product once, up to their last row. */
  lemma {:induction false} PagesAreSlice(ids: seq<Id>, table: Table, limit: nat, offset: nat, n: nat)
    requires Covers(ids, table) && offset <= |ids|
    ensures Pages(ids, table, limit, offset, n) == Catalog(ids, table)[offset..Smaller(offset + Room(limit, n), |ids|)]
    decreases n
  {
    if n > 0 {
      if offset + limit <= |ids| {
        PagesAreSlice(ids, table, limit, offset + limit, n - 1);
        PageThenSlice(ids, table, limit, offset, Smaller(offset + Room(limit, n), |ids|));
      } else {
        NoMorePages(ids, table, limit, offset + limit, n - 1);
        PageIsSlice(ids, table, limit, offset);
      }
    }
  }

  lemma {:induction false} NoMorePages(ids: seq<Id>, table: Table, limit: nat, offset: nat, n: nat)
    requires Covers(ids, table) && |ids| <= offset
    ensures Pages(ids, table, limit, offset, n) == []
    decreases n
  {
    if n > 0 {
      NoMorePages(ids, table, limit, offset + limit, n - 1);
    }
  }

  /** Enough pages of one table from the first product on are the whole catalog, each product once and in order. */
  lemma PagesCoverCatalog(ids: seq<Id>, table: Table, limit: nat, n: nat)
    requires Covers(ids, table) && |ids| <= n * limit
    ensures Pages(ids, table, limit, 0, n) == Catalog(ids, table)
    ensures |Catalog(ids, table)| == |ids| && forall i | 0 <= i < |ids| :: Catalog(ids, table)[i] == table[ids[i]]
  {
    RoomIsProduct(limit, n);
    PagesAreSlice(ids, table, limit, 0, n);
  }

  // -------------------------------------------------------------------- steps

  predicate Live(s: State, key: CacheKey) { key in s.cache && s.now < s.cache[key].setAt + s.ttl }

  predicate WellFormed(s: State) {
    s.versions != [] && forall i | 0 <= i < |s.versions| :: Covers(s.ids, s.versions[i].table)
  }

  predicate Filling(s: State, id: Id) { exists r :: 0 <= r < |s.readers| && s.readers[r].Read? && s.readers[r].key == Product(id) }

  predicate CanStep(s: State, st: Step) {
    match st
    case Tick(_) => true
    case Arrive(_) => true
    case Get(r) => r < |s.readers| && s.readers[r].Arrived?
    case Load(r) => r < |s.readers| && s.readers[r].Missed? && WellFormed(s)
    case Set(r) => r < |s.readers| && s.readers[r].Read?
    case CrashReader(r) => r < |s.readers|
    case Commit(id, _) => WellFormed(s) && id in Current(s) && (s.overlap || !Filling(s, id))
    case Delete(w) => w < |s.writers| && s.writers[w].Committed?
    case CrashWriter(w) => w < |s.writers| && s.writers[w].Committed?
  }

  function SetReader(s: State, r: nat, reader: Reader): State
    requires r < |s.readers|
  {
    s.(readers := s.readers[r := reader])
  }

  function Apply(s: State, st: Step): State
    requires CanStep(s, st)
  {
    match st
    case Tick(d) => s.(now := s.now + d)
    case Arrive(key) => s.(readers := s.readers + [Arrived(key)])
    case Get(r) =>
      var key := s.readers[r].key;
      if Live(s, key) then SetReader(s, r, Replied).(served := s.served + [Served(s.now, key, true, s.cache[key])])
      else SetReader(s, r, Missed(key))
    case Load(r) =>
      var loaded := Lookup(s.ids, Current(s), s.readers[r].key);
      SetReader(s, r, if loaded == Nothing then NotFound else Read(s.readers[r].key, loaded.value, s.now))
    case Set(r) =>
      var entry := Entry(s.readers[r].value, s.readers[r].readAt, s.now);
      var key := s.readers[r].key;
      SetReader(s, r, Replied).(cache := s.cache[key := entry], served := s.served + [Served(s.now, key, false, entry)])
    case CrashReader(r) => SetReader(s, r, ReaderCrashed)
    case Commit(id, row) =>
      s.(versions := s.versions + [Version(s.now, Current(s)[id := row])], writers := s.writers + [Committed(id, s.now)])
    case Delete(w) =>
      var id := s.writers[w].id;
      s.(cache := s.cache - {Product(id)}, writers := s.writers[w := Deleted(id, s.writers[w].at)])
    case CrashWriter(w) => s.(writers := s.writers[w := Died(s.writers[w].id, s.writers[w].at)])
  }

  predicate Initial(s: State) {
    s.cache == map[] && s.readers == [] && s.writers == [] && s.served == [] && 0 < s.ttl &&
    |s.versions| == 1 && s.versions[0].since <= s.now && Covers(s.ids, s.versions[0].table)
  }

  predicate IsRun(s: State, steps: seq<Step>)
    decreases |steps|
  {
    steps == [] || (CanStep(s, steps[0]) && IsRun(Apply(s, steps[0]), steps[1..]))
  }

  function Final(s: State, steps: seq<Step>): State
    requires IsRun(s, steps)
    decreases |steps|
  {
    if steps == [] then s else Final(Apply(s, steps[0]), steps[1..])
  }

  // --------------------------------------------------------------- staleness

  /** The table had this value for the key at time `t`. */
  predicate WasThere(s: State, key: CacheKey, value: Value, t: int) {
    exists i :: 0 <= i < |s.versions| && VersionHad(s, i, key, value, t)
  }

  predicate VersionHad(s: State, i: nat, key: CacheKey, value: Value, t: int)
    requires i < |s.versions|
  {
    Covers(s.ids, s.versions[i].table) && Lookup(s.ids, s.versions[i].table, key) == Just(value) &&
    s.versions[i].since <= t <= if i + 1 < |s.versions| then s.versions[i + 1].since else s.now
  }

  predicate EntryInv(s: State, key: CacheKey, e: Entry) { e.readAt <= e.setAt <= s.now && WasThere(s, key, e.value, e.readAt) }

  predicate ServedInv(s: State, v: Served) {
    EntryInv(s, v.key, v.entry) && v.entry.setAt <= v.at < v.entry.setAt + s.ttl && (!v.hit ==> v.at == v.entry.setAt)
  }

  predicate ReadInv(s: State, r: nat)
    requires r < |s.readers|
  {
    s.readers[r].Read? ==>
      s.readers[r].readAt <= s.now && WasThere(s, s.readers[r].key, s.readers[r].value, s.readers[r].readAt)
  }

  predicate AgeInv(s: State) {
    0 < s.ttl && WellFormed(s) && s.versions[|s.versions| - 1].since <= s.now &&
    (forall key | key in s.cache :: EntryInv(s, key, s.cache[key])) &&
    (forall r | 0 <= r < |s.readers| :: ReadInv(s, r)) &&
    (forall v | 0 <= v < |s.served| :: ServedInv(s, s.served[v]))
  }

  lemma StaysThere(s: State, st: Step, key: CacheKey, value: Value, t: int)
    requires AgeInv(s) && CanStep(s, st) && WasThere(s, key, value, t)
    ensures WasThere(Apply(s, st), key, value, t)
  {
    var i :| 0 <= i < |s.versions| && VersionHad(s, i, key, value, t);
    assert VersionHad(Apply(s, st), i, key, value, t);
  }

  lemma LoadIsThere(s: State, r: nat)
    requires AgeInv(s) && CanStep(s, Load(r)) && Lookup(s.ids, Current(s), s.readers[r].key).Just?
    ensures WasThere(s, s.readers[r].key, Lookup(s.ids, Current(s), s.readers[r].key).value, s.now)
  {
    assert VersionHad(s, |s.versions| - 1, s.readers[r].key, Lookup(s.ids, Current(s), s.readers[r].key).value, s.now);
  }

  lemma StepKeepsEntries(s: State, st: Step, key: CacheKey)
    requires AgeInv(s) && CanStep(s, st) && key in Apply(s, st).cache
    ensures EntryInv(Apply(s, st), key, Apply(s, st).cache[key])
  {
    var e := Apply(s, st).cache[key];
    if st.Set? {
      assert ReadInv(s, st.r);
    }
    StaysThere(s, st, key, e.value, e.readAt);
  }

  lemma StepKeepsReads(s: State, st: Step, r: nat)
    requires AgeInv(s) && CanStep(s, st) && r < |Apply(s, st).readers|
    ensures ReadInv(Apply(s, st), r)
  {
    var reader := Apply(s, st).readers[r];
    if reader.Read? {
      if st == Load(r) {
        LoadIsThere(s, r);
      } else {
        assert ReadInv(s, r);
      }
      StaysThere(s, st, reader.key, reader.value, reader.readAt);
    }
  }

  lemma StepKeepsServed(s: State, st: Step, v: nat)
    requires AgeInv(s) && CanStep(s, st) && v < |Apply(s, st).served|
    ensures ServedInv(Apply(s, st), Apply(s, st).served[v])
  {
    var reply := Apply(s, st).served[v];
    if v < |s.served| {
      assert ServedInv(s, reply);
    } else if st.Get? {
      assert EntryInv(s, reply.key, reply.entry);
    } else {
      assert ReadInv(s, st.r);
    }
    StaysThere(s, st, reply.key, reply.entry.value, reply.entry.readAt);
  }

  lemma StepKeepsAge(s: State, st: Step)
    requires AgeInv(s) && CanStep(s, st)
    ensures AgeInv(Apply(s, st))
  {
    var s' := Apply(s, st);
    forall key | key in s'.cache ensures EntryInv(s', key, s'.cache[key]) {
      StepKeepsEntries(s, st, key);
    }
    forall r | 0 <= r < |s'.readers| ensures ReadInv(s', r) {
      StepKeepsReads(s, st, r);
    }
    forall v | 0 <= v < |s'.served| ensures ServedInv(s', s'.served[v]) {
      StepKeepsServed(s, st, v);
    }
  }

  lemma {:induction false} RunKeepsAge(s: State, steps: seq<Step>)
    requires AgeInv(s) && IsRun(s, steps)
    ensures AgeInv(Final(s, steps)) && Final(s, steps).ttl == s.ttl
    decreases |steps|
  {
    if steps != [] {
      StepKeepsAge(s, steps[0]);
      RunKeepsAge(Apply(s, steps[0]), steps[1..]);
    }
  }

  /**
   Bounded staleness, for products and for listings, whatever overlaps or
   crashes: a reply holds what the table held when its fill read it, less than
   the TTL and that fill's read-to-set delay before the reply.
   */
  lemma BoundedStaleness(s: State, steps: seq<Step>, v: nat)
    requires Initial(s) && IsRun(s, steps) && v < |Final(s, steps).served|
    ensures var s' := Final(s, steps);
            var reply := s'.served[v];
            var delay := reply.entry.setAt - reply.entry.readAt;
            WasThere(s', reply.key, reply.entry.value, reply.entry.readAt) &&
            0 <= delay && 0 <= reply.at - reply.entry.readAt < s.ttl + delay &&
            (!reply.hit ==> reply.at - reply.entry.readAt == delay)
  {
    RunKeepsAge(s, steps);
    assert ServedInv(Final(s, steps), Final(s, steps).served[v]);
  }

  // ---------------------------------------------------------------- freshness

  /** A writer of the product committed at `since` or later and has not deleted the key. */
  predicate Dirty(s: State, id: Id, since: int) {
    exists w :: 0 <= w < |s.writers| && Undeleted(s.writers[w], id, since)
  }

  predicate Undeleted(w: Writer, id: Id, since: int) { !w.Deleted? && w.id == id && since <= w.at }

  predicate Fresh(s: State, id: Id, value: Value)
    requires WellFormed(s)
  {
    Lookup(s.ids, Current(s), Product(id)) == Just(value)
  }

  predicate FreshInv(s: State) {
    !s.overlap && WellFormed(s) &&
    (forall key | key in s.cache :: s.cache[key].setAt <= s.now) &&
    (forall key | key in s.cache && key.Product? ::
      Fresh(s, key.id, s.cache[key].value) || Dirty(s, key.id, s.cache[key].setAt)) &&
    (forall r | 0 <= r < |s.readers| && s.readers[r].Read? && s.readers[r].key.Product? ::
      Fresh(s, s.readers[r].key.id, s.readers[r].value))
  }

  /** A commit or a delete by another writer leaves a product dirty; so does the writer's crash. */
  lemma StaysDirty(s: State, st: Step, id: Id, since: int)
    requires CanStep(s, st) && Dirty(s, id, since) && !(st.Delete? && s.writers[st.w].id == id)
    ensures Dirty(Apply(s, st), id, since)
  {
    var w :| 0 <= w < |s.writers| && Undeleted(s.writers[w], id, since);
    assert Undeleted(Apply(s, st).writers[w], id, since);
  }

  lemma CommitDirties(s: State, id: Id, row: Row, since: int)
    requires CanStep(s, Commit(id, row)) && since <= s.now
    ensures Dirty(Apply(s, Commit(id, row)), id, since)
  {
    var s' := Apply(s, Commit(id, row));
    assert Undeleted(s'.writers[|s.writers|], id, since);
  }

  lemma StepKeepsFresh(s: State, st: Step)
    requires FreshInv(s) && CanStep(s, st)
    ensures FreshInv(Apply(s, st))
  {
    var s' := Apply(s, st);
    forall key | key in s'.cache && key.Product?
      ensures Fresh(s', key.id, s'.cache[key].value) || Dirty(s', key.id, s'.cache[key].setAt)
    {
      if st.Commit? && st.id == key.id {
        CommitDirties(s, st.id, st.row, s.cache[key].setAt);
      } else if !(st.Set? && s.readers[st.r].key == key) && !Fresh(s, key.id, s.cache[key].value) {
        StaysDirty(s, st, key.id, s.cache[key].setAt);
      }
    }
    forall r | 0 <= r < |s'.readers| && s'.readers[r].Read? && s'.readers[r].key.Product?
      ensures Fresh(s', s'.readers[r].key.id, s'.readers[r].value)
    {
    }
  }

  lemma {:induction false} RunKeepsFresh(s: State, steps: seq<Step>)
    requires FreshInv(s) && IsRun(s, steps)
    ensures FreshInv(Final(s, steps)) && Final(s, steps).ttl == s.ttl
    decreases |steps|
  {
    if steps != [] {
      StepKeepsFresh(s, steps[0]);
      RunKeepsFresh(Apply(s, steps[0]), steps[1..]);
    }
  }

  /**
   If no fill overlaps a write, a hit returns the product's current row, unless
   a writer committed less than a TTL ago and has not deleted the key, because
   it is between the two or died there.
   */
  lemma HitsAreCurrent(s: State, steps: seq<Step>, id: Id)
    requires Initial(s) && !s.overlap && IsRun(s, steps) && Live(Final(s, steps), Product(id))
    requires !Dirty(Final(s, steps), id, Final(s, steps).now - s.ttl + 1)
    ensures var s' := Final(s, steps);
            s'.versions != [] && id in Current(s') && s'.cache[Product(id)].value == One(Current(s')[id])
  {
    RunKeepsFresh(s, steps);
    var s' := Final(s, steps);
    DirtyEarlier(s', id, s'.cache[Product(id)].setAt, s'.now - s.ttl + 1);
  }

  lemma DirtyEarlier(s: State, id: Id, since: int, earlier: int)
    requires earlier <= since
    ensures Dirty(s, id, since) ==> Dirty(s, id, earlier)
  {
  }

  // ------------------------------------------------------- exactly when a hit is stale

  ghost predicate Reaches(s: State, t: State) {
    exists steps: seq<Step> :: IsRun(s, steps) && Final(s, steps) == t
  }

  lemma {:induction false} RunExtends(s: State, steps: seq<Step>, st: Step)
    requires IsRun(s, steps) && CanStep(Final(s, steps), st)
    ensures IsRun(s, steps + [st]) && Final(s, steps + [st]) == Apply(Final(s, steps), st)
    decreases |steps|
  {
    if steps == [] {
      assert [] + [st] == [st] && [st][1..] == [];
    } else {
      RunExtends(Apply(s, steps[0]), steps[1..], st);
      assert (steps + [st])[1..] == steps[1..] + [st];
    }
  }

  lemma Goes(s: State, t: State, st: Step, u: State)
    requires Reaches(s, t) && CanStep(t, st) && Apply(t, st) == u
    ensures Reaches(s, u)
  {
    var steps :| IsRun(s, steps) && Final(s, steps) == t;
    RunExtends(s, steps, st);
  }

  /** A live key holds something else than the current row, and every writer of the product deleted the key. */
  predicate StaleHit(s: State, id: Id) {
    Live(s, Product(id)) && s.versions != [] && !Dirty(s, id, s.now - s.ttl + 1) &&
    !(id in Current(s) && s.cache[Product(id)].value == One(Current(s)[id]))
  }

  ghost predicate CanBeStale(s: State) { exists t: State, id: Id :: Reaches(s, t) && StaleHit(t, id) }

  /** A reader missed the cache and holds the row it read. */
  lemma ReadsOld(s: State, id: Id)
    requires Initial(s) && id in Current(s)
    ensures Reaches(s, s.(readers := [Read(Product(id), One(Current(s)[id]), s.now)]))
  {
    var key := Product(id);
    assert IsRun(s, []) && Final(s, []) == s;
    assert [] + [Arrived(key)] == [Arrived(key)];
    Goes(s, s, Arrive(key), s.(readers := [Arrived(key)]));
    Goes(s, s.(readers := [Arrived(key)]), Get(0), s.(readers := [Missed(key)]));
    Goes(s, s.(readers := [Missed(key)]), Load(0), s.(readers := [Read(key, One(Current(s)[id]), s.now)]));
  }

  /** A write, from its commit to its delete, of a product whose key is not cached. */
  lemma WritesBehind(s: State, t: State, id: Id, row: Row)
    requires Reaches(s, t) && t.writers == [] && CanStep(t, Commit(id, row)) && Product(id) !in t.cache
    ensures Reaches(s, t.(versions := t.versions + [Version(t.now, Current(t)[id := row])], writers := [Deleted(id, t.now)]))
  {
    var versions := t.versions + [Version(t.now, Current(t)[id := row])];
    var committed := t.(versions := versions, writers := [Committed(id, t.now)]);
    assert [] + [Committed(id, t.now)] == [Committed(id, t.now)];
    Goes(s, t, Commit(id, row), committed);
    assert t.cache - {Product(id)} == t.cache;
    Goes(s, committed, Delete(0), t.(versions := versions, writers := [Deleted(id, t.now)]));
  }

  /** Meanwhile a writer commits another row and deletes the key. */
  lemma WritesNew(s: State, id: Id, newer: Row, t: State)
    requires Initial(s) && s.overlap && id in Current(s)
    requires t == s.(readers := [Read(Product(id), One(Current(s)[id]), s.now)],
                     versions := s.versions + [Version(s.now, Current(s)[id := newer])], writers := [Deleted(id, s.now)])
    ensures Reaches(s, t)
  {
    ReadsOld(s, id);
    WritesBehind(s, s.(readers := t.readers), id, newer);
  }

  /** The fill then sets the row it read: stale, with no writer at work. */
  lemma OverlappingFillIsStale(s: State, id: Id)
    requires Initial(s) && s.overlap && id in Current(s)
    ensures CanBeStale(s)
  {
    var was := Current(s)[id];
    var newer := was.(stock := was.stock + 1);
    var t := s.(readers := [Read(Product(id), One(was), s.now)],
                versions := s.versions + [Version(s.now, Current(s)[id := newer])], writers := [Deleted(id, s.now)]);
    WritesNew(s, id, newer, t);
    var e := Entry(One(was), s.now, s.now);
    var u := t.(readers := [Replied], cache := s.cache[Product(id) := e], served := [Served(s.now, Product(id), false, e)]);
    assert [] + [Served(s.now, Product(id), false, e)] == [Served(s.now, Product(id), false, e)];
    Goes(s, t, Set(0), u);
    assert StaleHit(u, id);
  }

  /**
   For every catalog that has a product: with no writer at work a hit can be
   stale if and only if a fill may overlap a write.
   */
  lemma StaleIffOverlap(s: State)
    requires Initial(s) && Current(s).Keys != {}
    ensures CanBeStale(s) <==> s.overlap
  {
    if s.overlap {
      var id :| id in Current(s).Keys;
      OverlappingFillIsStale(s, id);
    } else {
      forall t: State, id: Id | Reaches(s, t) ensures !StaleHit(t, id) {
        var steps :| IsRun(s, steps) && Final(s, steps) == t;
        RunKeepsFresh(s, steps);
        if Live(t, Product(id)) && !Dirty(t, id, t.now - t.ttl + 1) {
          HitsAreCurrent(s, steps, id);
        }
      }
    }
  }

  // ------------------------------------------------------- a listing is never deleted

  /** A live page that is not the table's, with every writer done. */
  predicate StalePage(s: State, limit: nat, offset: nat) {
    Live(s, Listing(limit, offset)) && WellFormed(s) && (forall w | 0 <= w < |s.writers| :: s.writers[w].Deleted?) &&
    Lookup(s.ids, Current(s), Listing(limit, offset)) != Just(s.cache[Listing(limit, offset)].value)
  }

  /** A page was read and cached, with nobody else about. */
  lemma CachesPage(s: State, limit: nat, offset: nat, page: Value, e: Entry)
    requires Initial(s) && Lookup(s.ids, Current(s), Listing(limit, offset)) == Just(page) && e == Entry(page, s.now, s.now)
    ensures var key := Listing(limit, offset);
            Reaches(s, s.(readers := [Replied], cache := s.cache[key := e], served := [Served(s.now, key, false, e)]))
  {
    var key := Listing(limit, offset);
    assert IsRun(s, []) && Final(s, []) == s;
    assert [] + [Arrived(key)] == [Arrived(key)];
    Goes(s, s, Arrive(key), s.(readers := [Arrived(key)]));
    Goes(s, s.(readers := [Arrived(key)]), Get(0), s.(readers := [Missed(key)]));
    Goes(s, s.(readers := [Missed(key)]), Load(0), s.(readers := [Read(key, page, s.now)]));
    assert [] + [Served(s.now, key, false, e)] == [Served(s.now, key, false, e)];
    Goes(s, s.(readers := [Read(key, page, s.now)]), Set(0),
         s.(readers := [Replied], cache := s.cache[key := e], served := [Served(s.now, key, false, e)]));
  }

  /** A page changes with the row of its first product. */
  lemma PageChanges(ids: seq<Id>, table: Table, limit: nat, offset: nat, newer: Row)
    requires Covers(ids, table) && 0 < limit && offset < |ids| && newer != table[ids[offset]]
    ensures Covers(ids, table[ids[offset] := newer])
    ensures Lookup(ids, table[ids[offset] := newer], Listing(limit, offset)) != Lookup(ids, table, Listing(limit, offset))
  {
    var table' := table[ids[offset] := newer];
    PageMeans(ids, table, limit, offset);
    PageMeans(ids, table', limit, offset);
    assert Lookup(ids, table, Listing(limit, offset)).value.rows[0] != Lookup(ids, table', Listing(limit, offset)).value.rows[0];
  }

  /**
   Writers delete the product's key and no other, so a page goes stale without
   any overlap: for every catalog and every page with a product on it.
   */
  lemma PageGoesStale(s: State, limit: nat, offset: nat)
    requires Initial(s) && 0 < limit && offset < |s.ids|
    ensures exists t: State :: Reaches(s, t) && StalePage(t, limit, offset)
  {
    var key, id := Listing(limit, offset), s.ids[offset];
    var newer := Current(s)[id].(stock := Current(s)[id].stock + 1);
    var page := Lookup(s.ids, Current(s), key).value;
    var e := Entry(page, s.now, s.now);
    CachesPage(s, limit, offset, page, e);
    var cached := s.(readers := [Replied], cache := s.cache[key := e], served := [Served(s.now, key, false, e)]);
    WritesBehind(s, cached, id, newer);
    PageChanges(s.ids, Current(s), limit, offset, newer);
    var t := cached.(versions := s.versions + [Version(s.now, Current(s)[id := newer])], writers := [Deleted(id, s.now)]);
    assert StalePage(t, limit, offset);
  }

  // ------------------------------------------------------------ one whole call

  /** The catalog's reads and stock writes, one after the other, over the table and the Redis keys. */
  class CatalogReads {
    const ttl: int
    const ids: seq<Id>
    var now: int
    var table: Table
    var cache: map<CacheKey, Entry>

    constructor (ttl: int, ids: seq<Id>, table: Table, now: int)
      requires Covers(ids, table)
      ensures Coherent() && this.ttl == ttl && this.ids == ids && this.table == table && this.now == now
    {
      this.ttl, this.ids, this.table, this.now, cache := ttl, ids, table, now, map[];
    }

    /** Every product key holds its current row. */
    ghost predicate Coherent()
      reads this
    {
      Covers(ids, table) && forall id | Product(id) in cache :: id in table && cache[Product(id)].value == One(table[id])
    }

    /** `get_product` and `list_products`, whose fill takes `delay`: the cached value, or else the table's, if it has one. */
    method Get(key: CacheKey, delay: nat) returns (reply: Loaded)
      requires Coherent()
      modifies `cache, `now
      ensures Coherent()
      ensures var held := key in old(cache) && old(now) < old(cache)[key].setAt + ttl;
              reply == (if held then Just(old(cache)[key].value) else Lookup(ids, table, key)) &&
              (held || reply == Nothing ==> cache == old(cache) && now == old(now)) &&
              (!held && reply.Just? ==>
                now == old(now) + delay && cache == old(cache)[key := Entry(reply.value, old(now), now)])
      ensures key.Product? ==> reply == if key.id in table then Just(One(table[key.id])) else Nothing
    {
      if key in cache && now < cache[key].setAt + ttl {
        return Just(cache[key].value);
      }
      reply := Lookup(ids, table, key);
      if reply.Just? {
        var readAt := now;
        now := now + delay;
        cache := cache[key := Entry(reply.value, readAt, now)];
      }
    }

    /** The end of `reserve_stock` and `release_stock`: the committed row, then the product's key deleted. */
    method Write(id: Id, row: Row)
      requires Coherent() && id in table
      modifies `table, `cache
      ensures Coherent() && table == old(table)[id := row]
      ensures forall key | key != Product(id) :: (key in cache <==> key in old(cache)) && (key in cache ==> cache[key] == old(cache)[key])
      ensures Product(id) !in cache
    {
      table := table[id := row];
      cache := cache - {Product(id)};
    }
  }
}
