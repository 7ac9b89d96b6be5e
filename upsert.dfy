/** The create-or-patch state machine that every `Add*` method of the inventory repeats,
    written once over an abstract entity type `T`.

    For each kind there is an in-memory index keyed by a natural key, the kind's entry of the
    orphan manager (the IDs of backend objects no source has reconfirmed yet) and the
    backend endpoint the kind's requests go to. The backend's create and patch replies and the
    diff computation are collaborators that may fail; they are `Oracles`, and the requests
    issued are recorded on the endpoint. */
module Upsert {
  import opened Wrappers
  import Marshal

  type FieldMap = Marshal.FieldMap

  /** `Failed`: an error returned by a collaborator (create, patch or diff), passed on as is.
      `Panic`: a Go runtime panic the code would raise (nil dereference, write into a nil map). */
  datatype Error = Failed(message: string) | Panic(reason: string)

  const NilDereference := Panic("invalid memory address or nil pointer dereference")
  const NilMapWrite := Panic("assignment to entry in nil map")

  /** The collaborators of one `Add*` call: `service.Create[T]`, `service.Patch[T]` and
      `utils.JSONDiffMapExceptID(new, old, false, SourcePriority)`. */
  datatype Oracles<!T> = Oracles(
    create: T -> Result<T, Error>,
    patch: (int, FieldMap) -> Result<T, Error>,
    diff: (T, T) -> Result<FieldMap, Error>)

  /** A request sent to a kind's endpoint. */
  datatype Request<T> = CreateRequest(body: T) | PatchRequest(id: int, diff: FieldMap)

  function CreateCount<T>(rs: seq<Request<T>>): nat {
    if rs == [] then 0 else CreateCount(rs[..|rs| - 1]) + (if rs[|rs| - 1].CreateRequest? then 1 else 0)
  }

  function PatchCount<T>(rs: seq<Request<T>>): nat {
    if rs == [] then 0 else PatchCount(rs[..|rs| - 1]) + (if rs[|rs| - 1].PatchRequest? then 1 else 0)
  }

  /** The backend endpoint of one kind: it records every request sent to it. */
  class Endpoint<T> {
    var requests: seq<Request<T>>

    constructor ()
      ensures requests == []
    {
      requests := [];
    }

    method Create(o: T, ora: Oracles<T>) returns (r: Result<T, Error>)
      modifies this
      ensures requests == old(requests) + [CreateRequest(o)]
      ensures r == ora.create(o)
    {
      requests := requests + [CreateRequest(o)];
      r := ora.create(o);
    }

    method Patch(id: int, diff: FieldMap, ora: Oracles<T>) returns (r: Result<T, Error>)
      modifies this
      ensures requests == old(requests) + [PatchRequest(id, diff)]
      ensures r == ora.patch(id, diff)
    {
      requests := requests + [PatchRequest(id, diff)];
      r := ora.patch(id, diff);
    }

    /** The hit path once the stored object is known: diff, and patch only when the diff is
        non-empty. `replaced` says whether the result must replace the stored entry. */
    method Refresh(o: T, existing: T, id: int, ora: Oracles<T>) returns (r: Result<T, Error>, replaced: bool)
      modifies this
      ensures Refreshed(requests, r, replaced) == RefreshExisting(o, existing, id, old(requests), ora)
    {
      var diff := ora.diff(o, existing);
      if diff.Failure? {
        return Failure(diff.error), false;
      }
      if |diff.value| > 0 {
        r := Patch(id, diff.value, ora);
        replaced := r.Success?;
        return;
      }
      return Success(existing), false;
    }
  }

  /** Outcome of the hit path: requests after it, the result, and whether the entry is replaced. */
  datatype Refreshed<T> = Refreshed(requests: seq<Request<T>>, result: Result<T, Error>, replaced: bool)

  function RefreshExisting<T>(o: T, existing: T, id: int, requests: seq<Request<T>>, ora: Oracles<T>): (rf: Refreshed<T>)
    // the diff fails: its error, no request, nothing replaced
    ensures ora.diff(o, existing).Failure? ==>
      rf == Refreshed(requests, Failure(ora.diff(o, existing).error), false)
    // the diff is empty: the stored object, no request, nothing replaced
    ensures ora.diff(o, existing).Success? && |ora.diff(o, existing).value| == 0 ==>
      rf == Refreshed(requests, Success(existing), false)
    // the diff is non-empty: exactly one patch carrying it, whose reply is the result and replaces
    // the entry exactly when the patch succeeded
    ensures ora.diff(o, existing).Success? && |ora.diff(o, existing).value| > 0 ==>
      && rf.requests == requests + [PatchRequest(id, ora.diff(o, existing).value)]
      && rf.result == ora.patch(id, ora.diff(o, existing).value)
      && (rf.replaced <==> rf.result.Success?)
  {
    match ora.diff(o, existing)
    case Failure(e) => Refreshed(requests, Failure(e), false)
    case Success(d) =>
      if |d| == 0 then Refreshed(requests, Success(existing), false)
      else
        var rs := requests + [PatchRequest(id, d)];
        match ora.patch(id, d)
        case Failure(e) => Refreshed(rs, Failure(e), false)
        case Success(p) => Refreshed(rs, Success(p), true)
  }

  /** The result of one upsert: the new state and what the call produced. */
  datatype Step<S, T> = Step(state: S, result: Result<T, Error>)

  // ======================== Single-key indexes ========================

  /** Where a created object is stored: under the submitted object's key (Site, Contact), or
      under the key of the backend's reply (the other kinds, whose create branch shadows the
      argument with the created object). */
  datatype StoreKey = SubmittedKey | ReplyKey

  /** Per-kind description of a single-key index. */
  datatype FlatKind<K, !T> = FlatKind(keyOf: T -> K, idOf: T -> int, tracksOrphans: bool, storeUnder: StoreKey)

  datatype FlatState<K, T> = FlatState(index: map<K, T>, orphans: set<int>, requests: seq<Request<T>>)

  function CreateKey<K, T>(kind: FlatKind<K, T>, o: T, created: T): K {
    if kind.storeUnder == SubmittedKey then kind.keyOf(o) else kind.keyOf(created)
  }

  /** Removes a reconfirmed object's ID from the kind's orphan set (`delete(OrphanManager[path], id)`). */
  function Unmark(tracksOrphans: bool, orphans: set<int>, id: int): set<int> {
    if tracksOrphans then orphans - {id} else orphans
  }

  /** One `Add*` call on a single-key index, after the tag stamping. */
  function FlatUpsert<K, T>(kind: FlatKind<K, T>, s: FlatState<K, T>, o: T, ora: Oracles<T>): (st: Step<FlatState<K, T>, T>)
    // absent key: exactly one create, for the submitted object, and no patch
    ensures kind.keyOf(o) !in s.index ==>
      && st.state.requests == s.requests + [CreateRequest(o)]
      && st.result == ora.create(o)
    // present key: never a create
    ensures kind.keyOf(o) in s.index ==>
      && CreateCount(st.state.requests) == CreateCount(s.requests)
      && PatchCount(st.state.requests) <= PatchCount(s.requests) + 1
    // the orphan set only loses the reconfirmed object's ID, and only on a hit of a tracked kind
    ensures st.state.orphans ==
      if kind.keyOf(o) in s.index && kind.tracksOrphans then s.orphans - {kind.idOf(s.index[kind.keyOf(o)])} else s.orphans
    // a hit whose diff fails: that error, and no request
    ensures kind.keyOf(o) in s.index && ora.diff(o, s.index[kind.keyOf(o)]).Failure? ==>
      st.state.requests == s.requests && st.result == Failure(ora.diff(o, s.index[kind.keyOf(o)]).error)
    // a hit with a non-empty diff: exactly one patch of the stored ID with that diff, and the
    // patch reply is the result (stored at the key on success, by the clause below)
    ensures kind.keyOf(o) in s.index && ora.diff(o, s.index[kind.keyOf(o)]).Success? && |ora.diff(o, s.index[kind.keyOf(o)]).value| > 0 ==>
      var e := s.index[kind.keyOf(o)];
      var d := ora.diff(o, e).value;
      st.state.requests == s.requests + [PatchRequest(kind.idOf(e), d)] && st.result == ora.patch(kind.idOf(e), d)
    // any error leaves the index as it was
    ensures st.result.Failure? ==> st.state.index == s.index
    // on success the result sits in the index, and nothing else changed
    ensures st.result.Success? && kind.keyOf(o) in s.index ==> st.state.index == s.index[kind.keyOf(o) := st.result.value]
    ensures st.result.Success? && kind.keyOf(o) !in s.index ==>
      st.state.index == s.index[CreateKey(kind, o, st.result.value) := st.result.value]
    // up to date: a no-op apart from the orphan mark
    ensures kind.keyOf(o) in s.index && ora.diff(o, s.index[kind.keyOf(o)]) == Success(map[]) ==>
      && st.state.index == s.index
      && st.state.requests == s.requests
      && st.result == Success(s.index[kind.keyOf(o)])
  {
    var key := kind.keyOf(o);
    if key in s.index then
      var existing := s.index[key];
      var rf := RefreshExisting(o, existing, kind.idOf(existing), s.requests, ora);
      var index := if rf.replaced then s.index[key := rf.result.value] else s.index;
      Step(FlatState(index, Unmark(kind.tracksOrphans, s.orphans, kind.idOf(existing)), rf.requests), rf.result)
    else
      var rs := s.requests + [CreateRequest(o)];
      match ora.create(o)
      case Failure(e) => Step(FlatState(s.index, s.orphans, rs), Failure(e))
      case Success(c) => Step(FlatState(s.index[CreateKey(kind, o, c) := c], s.orphans, rs), Success(c))
  }

  /** A single-key index with its orphan set and endpoint. */
  class FlatIndex<K(==), T> {
    var index: map<K, T>
    var orphans: set<int>
    const api: Endpoint<T>

    /** An index as bootstrap loaded it. */
    constructor (index: map<K, T>, orphans: set<int>)
      ensures this.index == index && this.orphans == orphans && api.requests == [] && fresh(api)
    {
      this.index := index;
      this.orphans := orphans;
      api := new Endpoint();
    }

    function State(): FlatState<K, T>
      reads this, api
    {
      FlatState(index, orphans, api.requests)
    }

    method Upsert(kind: FlatKind<K, T>, o: T, ora: Oracles<T>) returns (r: Result<T, Error>)
      modifies this, api
      ensures Step(State(), r) == FlatUpsert(kind, old(State()), o, ora)
    {
      var key := kind.keyOf(o);
      if key in index {
        var existing := index[key];
        orphans := Unmark(kind.tracksOrphans, orphans, kind.idOf(existing));
        var replaced;
        r, replaced := api.Refresh(o, existing, kind.idOf(existing), ora);
        if replaced {
          index := index[key := r.value];
        }
      } else {
        r := api.Create(o, ora);
        if r.Success? {
          index := index[CreateKey(kind, o, r.value) := r.value];
        }
      }
    }
  }

  // ======================== Lemmas about single-key upserts ========================

  /** Every stored entry sits under its own natural key. */
  ghost predicate KeyedByOwnKey<K, T>(keyOf: T -> K, index: map<K, T>) {
    forall k :: k in index ==> keyOf(index[k]) == k
  }

  /** The backend echoes the natural key of what it is sent. */
  ghost predicate RepliesKeepKey<K, T>(keyOf: T -> K, o: T, ora: Oracles<T>) {
    && (ora.create(o).Success? ==> keyOf(ora.create(o).value) == keyOf(o))
    && (forall id, d :: ora.patch(id, d).Success? ==> keyOf(ora.patch(id, d).value) == keyOf(o))
  }

  /** Natural-key uniqueness in the strong form: when the backend echoes keys, an upsert keeps
      every entry under its own key. */
  lemma FlatUpsertKeepsKeys<K, T>(kind: FlatKind<K, T>, s: FlatState<K, T>, o: T, ora: Oracles<T>)
    requires KeyedByOwnKey(kind.keyOf, s.index)
    requires RepliesKeepKey(kind.keyOf, o, ora)
    ensures KeyedByOwnKey(kind.keyOf, FlatUpsert(kind, s, o, ora).state.index)
  {
  }

  /** Idempotence: submitting the same object again right after it was created issues no
      request at all when the created object is stored under the submitted key and the diff
      against it is empty. */
  lemma FlatRepeatIsNoOp<K, T>(kind: FlatKind<K, T>, s: FlatState<K, T>, o: T, ora: Oracles<T>)
    requires kind.keyOf(o) !in s.index && ora.create(o).Success?
    requires CreateKey(kind, o, ora.create(o).value) == kind.keyOf(o)
    requires ora.diff(o, ora.create(o).value) == Success(map[])
    ensures var first := FlatUpsert(kind, s, o, ora);
      var second := FlatUpsert(kind, first.state, o, ora);
      && CreateCount(second.state.requests) == CreateCount(s.requests) + 1
      && second.state.requests == first.state.requests
      && second.state.index == first.state.index
      && second.result == first.result
  {
  }

  /** The create branch of most kinds stores the reply under the reply's key. When that key
      differs from the submitted one, the submitted key is still absent, so the same object
      submitted again is created a second time. */
  lemma FlatMismatchedReplyCreatesAgain<K, T>(kind: FlatKind<K, T>, s: FlatState<K, T>, o: T, ora: Oracles<T>)
    requires kind.storeUnder == ReplyKey
    requires kind.keyOf(o) !in s.index && ora.create(o).Success?
    requires kind.keyOf(ora.create(o).value) != kind.keyOf(o)
    ensures var first := FlatUpsert(kind, s, o, ora);
      var second := FlatUpsert(kind, first.state, o, ora);
      && Lookup(first.state.index, kind.keyOf(o)) == None
      && second.state.requests == s.requests + [CreateRequest(o), CreateRequest(o)]
      && CreateCount(second.state.requests) == CreateCount(s.requests) + 2
  {
  }

  // ======================== Two-level indexes ========================

  /** Per-kind description of a two-level index `map[K1]map[K2]*T`. A key part is `None` when
      computing it dereferences a nil reference (for instance `Device.Site.ID`). */
  datatype NestedKind<K1, K2, !T> = NestedKind(outerKeyOf: T -> Option<K1>, innerKeyOf: T -> Option<K2>, idOf: T -> int)

  datatype NestedState<K1, K2, T> = NestedState(index: map<K1, map<K2, T>>, orphans: set<int>, requests: seq<Request<T>>)

  /** `index[k1][k2]` with Go's reading of a missing inner map as an empty one. */
  function Lookup2<K1, K2, T>(index: map<K1, map<K2, T>>, k1: K1, k2: K2): Option<T> {
    if k1 in index && k2 in index[k1] then Some(index[k1][k2]) else None
  }

  /** One `Add*` call on a two-level index (Device, Vlan, Interface, VMInterface). All four
      kinds track orphans and store a created object under the reply's keys, allocating the
      inner map for the reply's outer key first. */
  function NestedUpsert<K1, K2, T>(kind: NestedKind<K1, K2, T>, s: NestedState<K1, K2, T>, o: T, ora: Oracles<T>)
    : (st: Step<NestedState<K1, K2, T>, T>)
    // a nil key reference in the submitted object panics before anything happens
    ensures kind.outerKeyOf(o).None? || kind.innerKeyOf(o).None? ==> st == Step(s, Failure(NilDereference))
    // requests: at most one, a create exactly when the key pair is absent
    ensures kind.outerKeyOf(o).Some? && kind.innerKeyOf(o).Some? ==>
      if Lookup2(s.index, kind.outerKeyOf(o).value, kind.innerKeyOf(o).value).None?
      then st.state.requests == s.requests + [CreateRequest(o)]
      else CreateCount(st.state.requests) == CreateCount(s.requests)
    // a hit unmarks the stored object, whatever happens next
    ensures kind.outerKeyOf(o).Some? && kind.innerKeyOf(o).Some? ==>
      var e := Lookup2(s.index, kind.outerKeyOf(o).value, kind.innerKeyOf(o).value);
      st.state.orphans == if e.Some? then s.orphans - {kind.idOf(e.value)} else s.orphans
    // a hit whose diff fails: that error, and no request
    ensures kind.outerKeyOf(o).Some? && kind.innerKeyOf(o).Some? ==>
      var e := Lookup2(s.index, kind.outerKeyOf(o).value, kind.innerKeyOf(o).value);
      e.Some? && ora.diff(o, e.value).Failure? ==>
        st.state.requests == s.requests && st.result == Failure(ora.diff(o, e.value).error)
    // a hit with a non-empty diff: exactly one patch of the stored ID with that diff, and the
    // patch reply is the result (stored at the pair on success, by the last clause)
    ensures kind.outerKeyOf(o).Some? && kind.innerKeyOf(o).Some? ==>
      var e := Lookup2(s.index, kind.outerKeyOf(o).value, kind.innerKeyOf(o).value);
      e.Some? && ora.diff(o, e.value).Success? && |ora.diff(o, e.value).value| > 0 ==>
        var d := ora.diff(o, e.value).value;
        st.state.requests == s.requests + [PatchRequest(kind.idOf(e.value), d)] && st.result == ora.patch(kind.idOf(e.value), d)
    // up to date: no request, the index as it was, and the stored object returned
    ensures kind.outerKeyOf(o).Some? && kind.innerKeyOf(o).Some? ==>
      var e := Lookup2(s.index, kind.outerKeyOf(o).value, kind.innerKeyOf(o).value);
      e.Some? && ora.diff(o, e.value) == Success(map[]) ==>
        st.state.index == s.index && st.state.requests == s.requests && st.result == Success(e.value)
    // a miss: a failed create is returned with the index as it was, and a successful call
    // returns the backend's reply
    ensures kind.outerKeyOf(o).Some? && kind.innerKeyOf(o).Some? ==>
      Lookup2(s.index, kind.outerKeyOf(o).value, kind.innerKeyOf(o).value).None? ==>
        && (ora.create(o).Failure? ==> st.result == ora.create(o) && st.state.index == s.index)
        && (st.result.Success? ==> st.result == ora.create(o))
    // a miss whose create succeeds: a reply with both key parts is stored under them and
    // returned; a reply with a nil key reference panics
    ensures kind.outerKeyOf(o).Some? && kind.innerKeyOf(o).Some? ==>
      Lookup2(s.index, kind.outerKeyOf(o).value, kind.innerKeyOf(o).value).None? && ora.create(o).Success? ==>
        var c := ora.create(o).value;
        if kind.outerKeyOf(c).Some? && kind.innerKeyOf(c).Some?
        then st.result == Success(c) && Lookup2(st.state.index, kind.outerKeyOf(c).value, kind.innerKeyOf(c).value) == Some(c)
        else st.result == Failure(NilDereference)
    // outer keys are never dropped
    ensures forall k1 :: k1 in s.index ==> k1 in st.state.index
    // a successful call leaves its result reachable under the result's own key pair
    ensures st.result.Success? ==>
      var r := st.result.value;
      && kind.outerKeyOf(o).Some? && kind.innerKeyOf(o).Some?
      && (if Lookup2(s.index, kind.outerKeyOf(o).value, kind.innerKeyOf(o).value).Some?
          then Lookup2(st.state.index, kind.outerKeyOf(o).value, kind.innerKeyOf(o).value) == Some(r)
          else (kind.outerKeyOf(r).Some? && kind.innerKeyOf(r).Some?
                && Lookup2(st.state.index, kind.outerKeyOf(r).value, kind.innerKeyOf(r).value) == Some(r)))
  {
    match (kind.outerKeyOf(o), kind.innerKeyOf(o))
    case (None, _) => Step(s, Failure(NilDereference))
    case (Some(_), None) => Step(s, Failure(NilDereference))
    case (Some(k1), Some(k2)) =>
      if k1 in s.index && k2 in s.index[k1] then
        var existing := s.index[k1][k2];
        var rf := RefreshExisting(o, existing, kind.idOf(existing), s.requests, ora);
        var index := if rf.replaced then s.index[k1 := s.index[k1][k2 := rf.result.value]] else s.index;
        Step(NestedState(index, s.orphans - {kind.idOf(existing)}, rf.requests), rf.result)
      else
        var rs := s.requests + [CreateRequest(o)];
        match ora.create(o)
        case Failure(e) => Step(NestedState(s.index, s.orphans, rs), Failure(e))
        case Success(c) =>
          match kind.outerKeyOf(c)
          case None => Step(NestedState(s.index, s.orphans, rs), Failure(NilDereference))
          case Some(c1) =>
            var grown := if c1 in s.index then s.index else s.index[c1 := map[]];
            match kind.innerKeyOf(c)
            case None => Step(NestedState(grown, s.orphans, rs), Failure(NilDereference))
            case Some(c2) => Step(NestedState(grown[c1 := grown[c1][c2 := c]], s.orphans, rs), Success(c))
  }

  /** A two-level index with its orphan set and endpoint. */
  class NestedIndex<K1(==), K2(==), T> {
    var index: map<K1, map<K2, T>>
    var orphans: set<int>
    const api: Endpoint<T>

    constructor (index: map<K1, map<K2, T>>, orphans: set<int>)
      ensures this.index == index && this.orphans == orphans && api.requests == [] && fresh(api)
    {
      this.index := index;
      this.orphans := orphans;
      api := new Endpoint();
    }

    function State(): NestedState<K1, K2, T>
      reads this, api
    {
      NestedState(index, orphans, api.requests)
    }

    method Upsert(kind: NestedKind<K1, K2, T>, o: T, ora: Oracles<T>) returns (r: Result<T, Error>)
      modifies this, api
      ensures Step(State(), r) == NestedUpsert(kind, old(State()), o, ora)
    {
      var k1, k2 := kind.outerKeyOf(o), kind.innerKeyOf(o);
      if k1.None? || k2.None? {
        return Failure(NilDereference);
      }
      if k1.value in index && k2.value in index[k1.value] {
        var existing := index[k1.value][k2.value];
        orphans := orphans - {kind.idOf(existing)};
        var replaced;
        r, replaced := api.Refresh(o, existing, kind.idOf(existing), ora);
        if replaced {
          index := index[k1.value := index[k1.value][k2.value := r.value]];
        }
      } else {
        r := api.Create(o, ora);
        if r.Failure? {
          return;
        }
        var created := r.value;
        var c1 := kind.outerKeyOf(created);
        if c1.None? {
          return Failure(NilDereference);
        }
        if c1.value !in index {
          index := index[c1.value := map[]];
        }
        var c2 := kind.innerKeyOf(created);
        if c2.None? {
          return Failure(NilDereference);
        }
        index := index[c1.value := index[c1.value][c2.value := created]];
      }
    }
  }

  /** The two-level index seen as one map keyed by the pair of keys. */
  function Pairs<K1(!new), K2(!new), T>(index: map<K1, map<K2, T>>): (m: map<(K1, K2), T>)
    ensures forall k1, k2 :: Lookup(m, (k1, k2)) == Lookup2(index, k1, k2)
  {
    map k1, k2 | k1 in index && k2 in index[k1] :: (k1, k2) := index[k1][k2]
  }

  lemma PairsSame<K1(!new), K2(!new), T>(a: map<K1, map<K2, T>>, b: map<K1, map<K2, T>>)
    requires forall x, y :: Lookup2(a, x, y) == Lookup2(b, x, y)
    ensures Pairs(a) == Pairs(b)
  {
  }

  lemma PairsUpdate<K1(!new), K2(!new), T>(a: map<K1, map<K2, T>>, b: map<K1, map<K2, T>>, k1: K1, k2: K2, v: T)
    requires forall x, y :: Lookup2(a, x, y) == if x == k1 && y == k2 then Some(v) else Lookup2(b, x, y)
    ensures Pairs(a) == Pairs(b)[(k1, k2) := v]
  {
    var u := Pairs(b)[(k1, k2) := v];
    forall p | p in Pairs(a) || p in u
      ensures p in Pairs(a) && p in u && Pairs(a)[p] == u[p]
    {
      assert Lookup(Pairs(a), (p.0, p.1)) == Lookup2(a, p.0, p.1);
      assert Lookup(Pairs(b), (p.0, p.1)) == Lookup2(b, p.0, p.1);
    }
  }

  /** Seen as one map keyed by key pairs, the two-level index behaves like a single-key index:
      a failure (even a panic after the inner map was allocated) changes no entry, a refresh
      replaces the entry of the submitted pair and a create adds the reply's pair. */
  lemma NestedAsPairs<K1(!new), K2(!new), T>(kind: NestedKind<K1, K2, T>, s: NestedState<K1, K2, T>, o: T, ora: Oracles<T>)
    requires kind.outerKeyOf(o).Some? && kind.innerKeyOf(o).Some?
    ensures var st := NestedUpsert(kind, s, o, ora);
      var key := (kind.outerKeyOf(o).value, kind.innerKeyOf(o).value);
      && (st.result.Failure? ==> Pairs(st.state.index) == Pairs(s.index))
      && (st.result.Success? && key in Pairs(s.index) ==>
            Pairs(st.state.index) == Pairs(s.index)[key := st.result.value])
      && (st.result.Success? && key !in Pairs(s.index) ==>
            var c := st.result.value;
            Pairs(st.state.index) == Pairs(s.index)[(kind.outerKeyOf(c).value, kind.innerKeyOf(c).value) := c])
  {
    NestedEntries(kind, s, o, ora);
    StepAsPairs(kind, s, o, NestedUpsert(kind, s, o, ora));
  }

  /** The pair view of any step whose entries change as `NestedEntries` says. */
  lemma StepAsPairs<K1(!new), K2(!new), T>(kind: NestedKind<K1, K2, T>, s: NestedState<K1, K2, T>, o: T, st: Step<NestedState<K1, K2, T>, T>)
    requires kind.outerKeyOf(o).Some? && kind.innerKeyOf(o).Some?
    requires var k1, k2 := kind.outerKeyOf(o).value, kind.innerKeyOf(o).value;
      && (st.result.Failure? ==> forall x, y :: Lookup2(st.state.index, x, y) == Lookup2(s.index, x, y))
      && (st.result.Success? && Lookup2(s.index, k1, k2).Some? ==>
            forall x, y :: Lookup2(st.state.index, x, y) ==
              if x == k1 && y == k2 then Some(st.result.value) else Lookup2(s.index, x, y))
      && (st.result.Success? && Lookup2(s.index, k1, k2).None? ==>
            var c := st.result.value;
            && kind.outerKeyOf(c).Some? && kind.innerKeyOf(c).Some?
            && forall x, y :: Lookup2(st.state.index, x, y) ==
                 if x == kind.outerKeyOf(c).value && y == kind.innerKeyOf(c).value then Some(c) else Lookup2(s.index, x, y))
    ensures var key := (kind.outerKeyOf(o).value, kind.innerKeyOf(o).value);
      && (st.result.Failure? ==> Pairs(st.state.index) == Pairs(s.index))
      && (st.result.Success? && key in Pairs(s.index) ==>
            Pairs(st.state.index) == Pairs(s.index)[key := st.result.value])
      && (st.result.Success? && key !in Pairs(s.index) ==>
            var c := st.result.value;
            Pairs(st.state.index) == Pairs(s.index)[(kind.outerKeyOf(c).value, kind.innerKeyOf(c).value) := c])
  {
    var k1, k2 := kind.outerKeyOf(o).value, kind.innerKeyOf(o).value;
    assert Lookup(Pairs(s.index), (k1, k2)) == Lookup2(s.index, k1, k2);
    if st.result.Failure? {
      PairsSame(st.state.index, s.index);
    } else if Lookup2(s.index, k1, k2).Some? {
      PairsUpdate(st.state.index, s.index, k1, k2, st.result.value);
    } else {
      var c := st.result.value;
      PairsUpdate(st.state.index, s.index, kind.outerKeyOf(c).value, kind.innerKeyOf(c).value, c);
    }
  }

  /** `NestedAsPairs` pair by pair. */
  lemma NestedEntries<K1, K2, T>(kind: NestedKind<K1, K2, T>, s: NestedState<K1, K2, T>, o: T, ora: Oracles<T>)
    requires kind.outerKeyOf(o).Some? && kind.innerKeyOf(o).Some?
    ensures var st := NestedUpsert(kind, s, o, ora);
      var k1, k2 := kind.outerKeyOf(o).value, kind.innerKeyOf(o).value;
      && (st.result.Failure? ==> forall x, y :: Lookup2(st.state.index, x, y) == Lookup2(s.index, x, y))
      && (st.result.Success? && Lookup2(s.index, k1, k2).Some? ==>
            forall x, y :: Lookup2(st.state.index, x, y) ==
              if x == k1 && y == k2 then Some(st.result.value) else Lookup2(s.index, x, y))
      && (st.result.Success? && Lookup2(s.index, k1, k2).None? ==>
            var c := st.result.value;
            && kind.outerKeyOf(c).Some? && kind.innerKeyOf(c).Some?
            && forall x, y :: Lookup2(st.state.index, x, y) ==
                 if x == kind.outerKeyOf(c).value && y == kind.innerKeyOf(c).value then Some(c) else Lookup2(s.index, x, y))
  {
  }
}
