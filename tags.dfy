/** `AddTag`: the inventory keeps its tags in a slice scanned by name, not in a map. A miss
    creates the tag and appends the reply; a hit diffs against the first tag of that name and
    patches that slot. Tags are not stamped and not tracked by the orphan manager. */
module Tags {
  import opened Wrappers
  import opened Objects
  import opened Upsert

  /** `slices.IndexFunc(tags, name matches)`: the first position of a tag with this name, or -1. */
  function FirstByName(tags: seq<Tag>, name: string): (i: int)
    ensures -1 <= i < |tags|
    ensures 0 <= i ==> tags[i].name == name && forall j :: 0 <= j < i ==> tags[j].name != name
    ensures i == -1 ==> forall j :: 0 <= j < |tags| ==> tags[j].name != name
  {
    if |tags| == 0 then -1
    else if tags[0].name == name then 0
    else
      var k := FirstByName(tags[1..], name);
      if k == -1 then -1 else k + 1
  }

  datatype TagState = TagState(tags: seq<Tag>, requests: seq<Request<Tag>>)

  /** One `AddTag` call. */
  function TagUpsert(s: TagState, t: Tag, ora: Oracles<Tag>): (st: Step<TagState, Tag>)
    // a miss: exactly one create, and the reply (only on success) is appended at the end
    ensures FirstByName(s.tags, t.name) == -1 ==>
      && st.state.requests == s.requests + [CreateRequest(t)]
      && st.result == ora.create(t)
      && st.state.tags == if st.result.Success? then s.tags + [st.result.value] else s.tags
    // a hit: never a create, at most one patch, and only the matched slot can change
    ensures var i := FirstByName(s.tags, t.name);
      0 <= i ==>
      && CreateCount(st.state.requests) == CreateCount(s.requests)
      && PatchCount(st.state.requests) <= PatchCount(s.requests) + 1
      && st.state.tags == if st.result.Success? then s.tags[i := st.result.value] else s.tags
    // a hit whose diff fails: that error, and no request
    ensures var i := FirstByName(s.tags, t.name);
      0 <= i && ora.diff(t, s.tags[i]).Failure? ==>
      st.state.requests == s.requests && st.result == Failure(ora.diff(t, s.tags[i]).error)
    // a hit with a non-empty diff: exactly one patch of the stored tag's ID with that diff, and
    // the patch reply is the result (written into slot `i` on success, by the clause above)
    ensures var i := FirstByName(s.tags, t.name);
      0 <= i && ora.diff(t, s.tags[i]).Success? && |ora.diff(t, s.tags[i]).value| > 0 ==>
      var d := ora.diff(t, s.tags[i]).value;
      st.state.requests == s.requests + [PatchRequest(s.tags[i].id, d)] && st.result == ora.patch(s.tags[i].id, d)
    // up to date: no request, and the stored tag is returned
    ensures var i := FirstByName(s.tags, t.name);
      0 <= i && ora.diff(t, s.tags[i]) == Success(map[]) ==>
      st == Step(s, Success(s.tags[i]))
  {
    var i := FirstByName(s.tags, t.name);
    if i == -1 then
      var rs := s.requests + [CreateRequest(t)];
      match ora.create(t)
      case Failure(e) => Step(TagState(s.tags, rs), Failure(e))
      case Success(c) => Step(TagState(s.tags + [c], rs), Success(c))
    else
      var rf := RefreshExisting(t, s.tags[i], s.tags[i].id, s.requests, ora);
      Step(TagState(if rf.replaced then s.tags[i := rf.result.value] else s.tags, rf.requests), rf.result)
  }

  /** The inventory's tag slice and the tags endpoint. */
  class TagList {
    var tags: seq<Tag>
    const api: Endpoint<Tag>

    constructor (tags: seq<Tag>)
      ensures this.tags == tags && api.requests == [] && fresh(api)
    {
      this.tags := tags;
      api := new Endpoint();
    }

    function State(): TagState
      reads this, api
    {
      TagState(tags, api.requests)
    }

    /** The linear scan of `slices.IndexFunc`. */
    method IndexByName(name: string) returns (i: int)
      ensures i == FirstByName(tags, name)
      ensures 0 <= i ==> i < |tags| && tags[i].name == name
      ensures i == -1 <==> forall j :: 0 <= j < |tags| ==> tags[j].name != name
    {
      i := 0;
      while i < |tags|
        invariant 0 <= i <= |tags|
        invariant forall j :: 0 <= j < i ==> tags[j].name != name
      {
        if tags[i].name == name {
          return;
        }
        i := i + 1;
      }
      i := -1;
    }

    method Upsert(t: Tag, ora: Oracles<Tag>) returns (r: Result<Tag, Error>)
      modifies this, api
      ensures Step(State(), r) == TagUpsert(old(State()), t, ora)
    {
      var i := IndexByName(t.name);
      if i == -1 {
        r := api.Create(t, ora);
        if r.Success? {
          tags := tags + [r.value];
        }
      } else {
        var stored := tags[i];
        var replaced;
        r, replaced := api.Refresh(t, stored, stored.id, ora);
        if replaced {
          tags := tags[i := r.value];
        }
      }
    }
  }

  /** No two tags in the slice share a name. */
  predicate DistinctNames(tags: seq<Tag>) {
    forall i, j :: 0 <= i < j < |tags| ==> tags[i].name != tags[j].name
  }

  /** When the backend keeps the submitted name, an `AddTag` call never introduces a second tag
      of the same name, and a successful call leaves its result as the first (and, with distinct
      names, the only) tag of that name. */
  lemma TagUpsertKeepsNamesDistinct(s: TagState, t: Tag, ora: Oracles<Tag>)
    requires DistinctNames(s.tags)
    requires RepliesKeepKey((x: Tag) => x.name, t, ora)
    ensures var st := TagUpsert(s, t, ora);
      && DistinctNames(st.state.tags)
      && (st.result.Success? ==>
            var k := FirstByName(st.state.tags, t.name);
            0 <= k && st.state.tags[k] == st.result.value)
  {
    var st := TagUpsert(s, t, ora);
    var i := FirstByName(s.tags, t.name);
    if i == -1 {
      if st.result.Success? {
        assert st.result.value.name == t.name;
        assert st.state.tags[|s.tags|] == st.result.value;
      }
    } else if st.result.Success? {
      var rf := RefreshExisting(t, s.tags[i], s.tags[i].id, s.requests, ora);
      if rf.replaced {
        var d :| ora.diff(t, s.tags[i]) == Success(d);
        assert rf.result == ora.patch(s.tags[i].id, d);
      }
      assert st.result.value.name == t.name;
      assert st.state.tags[i] == st.result.value;
    }
  }
}
