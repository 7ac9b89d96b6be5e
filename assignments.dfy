/** `AddContactAssignment`: a four-level index content type → object ID → contact ID → role ID.
    The three inner levels for the submitted keys are allocated before the lookup, so they stay
    even when the call then fails. The create branch writes with the keys of the backend's
    reply and allocates nothing, so a reply whose keys lead to a missing level is a write into
    a nil map. */
module Assignments {
  import opened Wrappers
  import opened Objects
  import opened Upsert

  type ByRole = map<int, ContactAssignment>
  type ByContact = map<int, ByRole>
  type ByObject = map<int, ByContact>
  type AssignmentIndex = map<string, ByObject>

  /** `index[ct][oid][cid][rid]`, reading a missing level as an empty one. */
  function Lookup4(ix: AssignmentIndex, ct: string, oid: int, cid: int, rid: int): Option<ContactAssignment> {
    if ct in ix && oid in ix[ct] && cid in ix[ct][oid] && rid in ix[ct][oid][cid]
    then Some(ix[ct][oid][cid][rid])
    else None
  }

  /** The four key parts of an assignment; `None` when its contact or role reference is nil. */
  function KeysOf(ca: ContactAssignment): Option<(string, int, int, int)> {
    if ca.contact.Some? && ca.role.Some?
    then Some((ca.contentType, ca.objectID, ca.contact.value.base.id, ca.role.value.base.id))
    else None
  }

  datatype AssignmentState = AssignmentState(index: AssignmentIndex, orphans: set<int>, requests: seq<Request<ContactAssignment>>)

  /** The two outer levels for `(ct, oid)`, allocated when missing. */
  function OuterLevels(ix: AssignmentIndex, ct: string, oid: int): (r: AssignmentIndex)
    ensures ct in r && oid in r[ct]
    ensures forall k :: k in ix ==> k in r
  {
    var ix1 := if ct in ix then ix else ix[ct := map[]];
    if oid in ix1[ct] then ix1 else ix1[ct := ix1[ct][oid := map[]]]
  }

  /** The contact level for `(ct, oid, cid)`, allocated when missing. */
  function ContactLevel(ix: AssignmentIndex, ct: string, oid: int, cid: int): (r: AssignmentIndex)
    requires ct in ix && oid in ix[ct]
    ensures ct in r && oid in r[ct] && cid in r[ct][oid]
    ensures forall k :: k in ix ==> k in r
  {
    if cid in ix[ct][oid] then ix else ix[ct := ix[ct][oid := ix[ct][oid][cid := map[]]]]
  }

  /** The three levels above the role level exist for `(ct, oid, cid)`. */
  predicate HasLevels(ix: AssignmentIndex, ct: string, oid: int, cid: int) {
    ct in ix && oid in ix[ct] && cid in ix[ct][oid]
  }

  /** `ix[ct][oid][cid][rid] = v` into existing levels. */
  function Put4(ix: AssignmentIndex, ct: string, oid: int, cid: int, rid: int, v: ContactAssignment): (r: AssignmentIndex)
    requires ct in ix && oid in ix[ct] && cid in ix[ct][oid]
    ensures Lookup4(r, ct, oid, cid, rid) == Some(v)
  {
    ix[ct := ix[ct][oid := ix[ct][oid][cid := ix[ct][oid][cid][rid := v]]]]
  }

  /** One `AddContactAssignment` call, after the tag stamping. */
  function AssignmentUpsert(s: AssignmentState, o: ContactAssignment, ora: Oracles<ContactAssignment>)
    : (st: Step<AssignmentState, ContactAssignment>)
    // the outer levels always exist afterwards, and so does the contact level when there is a contact
    ensures o.contentType in st.state.index && o.objectID in st.state.index[o.contentType]
    ensures o.contact.Some? ==> o.contact.value.base.id in st.state.index[o.contentType][o.objectID]
    // a nil contact or role panics before any request and before the orphan set is touched
    ensures KeysOf(o).None? ==>
      st.result == Failure(NilDereference) && st.state.requests == s.requests && st.state.orphans == s.orphans
  {
    var ct, oid := o.contentType, o.objectID;
    var ix2 := OuterLevels(s.index, ct, oid);
    if o.contact.None? then Step(AssignmentState(ix2, s.orphans, s.requests), Failure(NilDereference))
    else
      var cid := o.contact.value.base.id;
      var ix3 := ContactLevel(ix2, ct, oid, cid);
      if o.role.None? then Step(AssignmentState(ix3, s.orphans, s.requests), Failure(NilDereference))
      else
        var rid := o.role.value.base.id;
        if rid in ix3[ct][oid][cid] then
          var existing := ix3[ct][oid][cid][rid];
          var rf := RefreshExisting(o, existing, existing.base.id, s.requests, ora);
          var ix := if rf.replaced then Put4(ix3, ct, oid, cid, rid, rf.result.value) else ix3;
          Step(AssignmentState(ix, s.orphans - {existing.base.id}, rf.requests), rf.result)
        else
          var rs := s.requests + [CreateRequest(o)];
          match ora.create(o)
          case Failure(e) => Step(AssignmentState(ix3, s.orphans, rs), Failure(e))
          case Success(c) =>
            if c.contact.None? || c.role.None? then
              Step(AssignmentState(ix3, s.orphans, rs), Failure(NilDereference))
            else
              var (ct', oid', cid', rid') := (c.contentType, c.objectID, c.contact.value.base.id, c.role.value.base.id);
              if ct' in ix3 && oid' in ix3[ct'] && cid' in ix3[ct'][oid'] then
                Step(AssignmentState(Put4(ix3, ct', oid', cid', rid', c), s.orphans, rs), Success(c))
              else
                Step(AssignmentState(ix3, s.orphans, rs), Failure(NilMapWrite))
  }

  /** The assignments index with its orphan set and endpoint. */
  class AssignmentStore {
    var index: AssignmentIndex
    var orphans: set<int>
    const api: Endpoint<ContactAssignment>

    constructor (index: AssignmentIndex, orphans: set<int>)
      ensures this.index == index && this.orphans == orphans && api.requests == [] && fresh(api)
    {
      this.index := index;
      this.orphans := orphans;
      api := new Endpoint();
    }

    function State(): AssignmentState
      reads this, api
    {
      AssignmentState(index, orphans, api.requests)
    }

    /** `if index[ct] == nil { make }` and `if index[ct][oid] == nil { make }`. */
    method AllocateOuter(ct: string, oid: int)
      modifies this
      ensures index == OuterLevels(old(index), ct, oid) && orphans == old(orphans)
    {
      if ct !in index {
        index := index[ct := map[]];
      }
      if oid !in index[ct] {
        index := index[ct := index[ct][oid := map[]]];
      }
    }

    /** `if index[ct][oid][cid] == nil { make }`. */
    method AllocateContact(ct: string, oid: int, cid: int)
      requires ct in index && oid in index[ct]
      modifies this
      ensures index == ContactLevel(old(index), ct, oid, cid) && orphans == old(orphans)
    {
      if cid !in index[ct][oid] {
        index := index[ct := index[ct][oid := index[ct][oid][cid := map[]]]];
      }
    }

    method Upsert(o: ContactAssignment, ora: Oracles<ContactAssignment>) returns (r: Result<ContactAssignment, Error>)
      modifies this, api
      ensures Step(State(), r) == AssignmentUpsert(old(State()), o, ora)
    {
      var ct, oid := o.contentType, o.objectID;
      AllocateOuter(ct, oid);
      if o.contact.None? {
        return Failure(NilDereference);
      }
      var cid := o.contact.value.base.id;
      AllocateContact(ct, oid, cid);
      if o.role.None? {
        return Failure(NilDereference);
      }
      var rid := o.role.value.base.id;
      if rid in index[ct][oid][cid] {
        var existing := index[ct][oid][cid][rid];
        orphans := orphans - {existing.base.id};
        var replaced;
        r, replaced := api.Refresh(o, existing, existing.base.id, ora);
        if replaced {
          index := Put4(index, ct, oid, cid, rid, r.value);
        }
      } else {
        r := api.Create(o, ora);
        if r.Failure? {
          return;
        }
        var c := r.value;
        if c.contact.None? || c.role.None? {
          return Failure(NilDereference);
        }
        var ct', oid', cid', rid' := c.contentType, c.objectID, c.contact.value.base.id, c.role.value.base.id;
        if ct' in index && oid' in index[ct'] && cid' in index[ct'][oid'] {
          index := Put4(index, ct', oid', cid', rid', c);
        } else {
          return Failure(NilMapWrite);
        }
      }
    }
  }

  /** The requests and the orphan set of an `AddContactAssignment` call: a create exactly on a
      miss and never on a hit, and a hit unmarks the stored assignment whatever happens next.
      On a hit a failing diff is returned with no request, an empty diff sends nothing and
      returns the stored assignment, and a non-empty diff sends exactly one patch with it,
      whose reply is the result. */
  lemma AssignmentRequests(s: AssignmentState, o: ContactAssignment, ora: Oracles<ContactAssignment>)
    requires KeysOf(o).Some?
    ensures var st := AssignmentUpsert(s, o, ora);
      var (ct, oid, cid, rid) := KeysOf(o).value;
      var stored := Lookup4(s.index, ct, oid, cid, rid);
      && (stored.None? ==> st.state.requests == s.requests + [CreateRequest(o)] && st.state.orphans == s.orphans)
      && (stored.None? && ora.create(o).Failure? ==> st.result == ora.create(o))
      && (stored.Some? ==>
            && CreateCount(st.state.requests) == CreateCount(s.requests)
            && PatchCount(st.state.requests) <= PatchCount(s.requests) + 1
            && st.state.orphans == s.orphans - {stored.value.base.id})
      && (stored.Some? && ora.diff(o, stored.value).Failure? ==>
            st.state.requests == s.requests && st.result == Failure(ora.diff(o, stored.value).error))
      && (stored.Some? && ora.diff(o, stored.value) == Success(map[]) ==>
            st.state.requests == s.requests && st.result == Success(stored.value))
      && (stored.Some? && ora.diff(o, stored.value).Success? && |ora.diff(o, stored.value).value| > 0 ==>
            var d := ora.diff(o, stored.value).value;
            && st.state.requests == s.requests + [PatchRequest(stored.value.base.id, d)]
            && st.result == ora.patch(stored.value.base.id, d))
  {
    var (ct, oid, cid, rid) := KeysOf(o).value;
    OuterLevelsAddNoEntry(s.index, ct, oid);
    ContactLevelAddsNoEntry(OuterLevels(s.index, ct, oid), ct, oid, cid);
  }

  /** What a successful `AddContactAssignment` call yields and where it is stored: on a hit the
      stored assignment or the patch reply, under the submitted keys; on a miss the backend's
      create reply, under the reply's own keys. */
  lemma AssignmentStored(s: AssignmentState, o: ContactAssignment, ora: Oracles<ContactAssignment>)
    ensures var st := AssignmentUpsert(s, o, ora);
      st.result.Success? ==>
        var r := st.result.value;
        var (ct, oid, cid, rid) := KeysOf(o).value;
        var stored := Lookup4(s.index, ct, oid, cid, rid);
        if stored.Some?
        then
          && Lookup4(st.state.index, ct, oid, cid, rid) == Some(r)
          && ora.diff(o, stored.value).Success?
          && (if |ora.diff(o, stored.value).value| == 0 then r == stored.value
              else st.result == ora.patch(stored.value.base.id, ora.diff(o, stored.value).value))
        else
          && st.result == ora.create(o)
          && KeysOf(r).Some?
          && Lookup4(st.state.index, KeysOf(r).value.0, KeysOf(r).value.1, KeysOf(r).value.2, KeysOf(r).value.3) == Some(r)
  {
    var st := AssignmentUpsert(s, o, ora);
    if st.result.Success? {
      var (ct, oid, cid, rid) := KeysOf(o).value;
      OuterLevelsAddNoEntry(s.index, ct, oid);
      ContactLevelAddsNoEntry(OuterLevels(s.index, ct, oid), ct, oid, cid);
    }
  }

  /** A miss whose create succeeds: a reply with a nil contact or role panics; a reply whose
      three upper levels exist once the submitted keys' levels are allocated is stored under its
      own keys and returned; any other reply is a write into a nil map. */
  lemma AssignmentCreated(s: AssignmentState, o: ContactAssignment, ora: Oracles<ContactAssignment>)
    requires KeysOf(o).Some? && ora.create(o).Success?
    requires Lookup4(s.index, KeysOf(o).value.0, KeysOf(o).value.1, KeysOf(o).value.2, KeysOf(o).value.3).None?
    ensures var st := AssignmentUpsert(s, o, ora);
      var c := ora.create(o).value;
      if KeysOf(c).None? then st.result == Failure(NilDereference)
      else
        var (ct, oid, cid, rid) := KeysOf(c).value;
        if (ct, oid, cid) == (o.contentType, o.objectID, KeysOf(o).value.2) || HasLevels(s.index, ct, oid, cid)
        then st.result == Success(c) && Lookup4(st.state.index, ct, oid, cid, rid) == Some(c)
        else st.result == Failure(NilMapWrite)
  {
    var c := ora.create(o).value;
    var ix3 := ContactLevel(OuterLevels(s.index, o.contentType, o.objectID), o.contentType, o.objectID, KeysOf(o).value.2);
    if KeysOf(c).Some? {
      var (ct, oid, cid, rid) := KeysOf(c).value;
      LevelsAfterAllocation(s.index, o.contentType, o.objectID, KeysOf(o).value.2, ct, oid, cid);
      assert HasLevels(ix3, ct, oid, cid) <==>
        (ct, oid, cid) == (o.contentType, o.objectID, KeysOf(o).value.2) || HasLevels(s.index, ct, oid, cid);
    }
  }

  /** After allocating the levels of `(ct, oid, cid)`, the levels of `(ct', oid', cid')` exist
      exactly when they are those, or existed before. */
  lemma LevelsAfterAllocation(ix: AssignmentIndex, ct: string, oid: int, cid: int, ct': string, oid': int, cid': int)
    ensures HasLevels(ContactLevel(OuterLevels(ix, ct, oid), ct, oid, cid), ct', oid', cid') <==>
      (ct', oid', cid') == (ct, oid, cid) || HasLevels(ix, ct', oid', cid')
  {
  }

  /** Two indexes hold the same assignments (they may differ in empty levels). */
  ghost predicate SameEntries(a: AssignmentIndex, b: AssignmentIndex) {
    forall ct, oid, cid, rid :: Lookup4(a, ct, oid, cid, rid) == Lookup4(b, ct, oid, cid, rid)
  }

  /** `a` holds the assignments of `b`, with `v` stored under `key` and nothing else changed. */
  ghost predicate UpdatedAt(a: AssignmentIndex, b: AssignmentIndex, key: (string, int, int, int), v: ContactAssignment) {
    forall ct, oid, cid, rid :: Lookup4(a, ct, oid, cid, rid) ==
      (if (ct, oid, cid, rid) == key then Some(v) else Lookup4(b, ct, oid, cid, rid))
  }

  /** Entry by entry, an `AddContactAssignment` call behaves like a single-key upsert: the
      levels it allocates add no assignment, a failure changes none, a hit replaces the one under
      the submitted keys and a create adds the reply under the reply's keys. */
  lemma AssignmentEntries(s: AssignmentState, o: ContactAssignment, ora: Oracles<ContactAssignment>)
    ensures var st := AssignmentUpsert(s, o, ora);
      && (st.result.Failure? ==> SameEntries(st.state.index, s.index))
      && (st.result.Success? && Lookup4(s.index, KeysOf(o).value.0, KeysOf(o).value.1, KeysOf(o).value.2, KeysOf(o).value.3).Some? ==>
            UpdatedAt(st.state.index, s.index, KeysOf(o).value, st.result.value))
      && (st.result.Success? && Lookup4(s.index, KeysOf(o).value.0, KeysOf(o).value.1, KeysOf(o).value.2, KeysOf(o).value.3).None? ==>
            UpdatedAt(st.state.index, s.index, KeysOf(st.result.value).value, st.result.value))
  {
    var st := AssignmentUpsert(s, o, ora);
    var ct, oid := o.contentType, o.objectID;
    var ix2 := OuterLevels(s.index, ct, oid);
    OuterLevelsAddNoEntry(s.index, ct, oid);
    if o.contact.Some? {
      var cid := o.contact.value.base.id;
      var ix3 := ContactLevel(ix2, ct, oid, cid);
      ContactLevelAddsNoEntry(ix2, ct, oid, cid);
      if o.role.Some? && st.result.Success? {
        var rid := o.role.value.base.id;
        if rid in ix3[ct][oid][cid] {
          Put4Updates(ix3, ct, oid, cid, rid, st.result.value);
        } else {
          var c := st.result.value;
          Put4Updates(ix3, c.contentType, c.objectID, c.contact.value.base.id, c.role.value.base.id, c);
        }
      }
    }
  }

  lemma OuterLevelsAddNoEntry(ix: AssignmentIndex, ct: string, oid: int)
    ensures SameEntries(OuterLevels(ix, ct, oid), ix)
  {
  }

  lemma ContactLevelAddsNoEntry(ix: AssignmentIndex, ct: string, oid: int, cid: int)
    requires ct in ix && oid in ix[ct]
    ensures SameEntries(ContactLevel(ix, ct, oid, cid), ix)
  {
  }

  lemma Put4Updates(ix: AssignmentIndex, ct: string, oid: int, cid: int, rid: int, v: ContactAssignment)
    requires ct in ix && oid in ix[ct] && cid in ix[ct][oid]
    ensures UpdatedAt(Put4(ix, ct, oid, cid, rid, v), ix, (ct, oid, cid, rid), v)
  {
  }
}
