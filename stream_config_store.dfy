/** The renderer's list of stream configurations, keyed by title. The store
    holds one list; each action replaces it by a new list computed from the
    old one: prepend, replace every record with a title, remove every record
    with a title. */
module StreamConfigStore {
  import opened Optional

  /** One configured stream. Records are told apart only by `title`. */
  datatype StreamConfig = StreamConfig(
    title: string,
    roomUrl: string,
    proxy: string,
    cookie: string,
    interval: int,
    filename: string,
    directory: string
  )

  // ---------------------------------------------------------------------------
  // The list transformations
  // ---------------------------------------------------------------------------

  /** `list.map(c => c.title === title ? newConfig : c)`. */
  function ReplaceTitle(list: seq<StreamConfig>, title: string, newConfig: StreamConfig): seq<StreamConfig>
    decreases |list|
  {
    if list == [] then []
    else [if list[0].title == title then newConfig else list[0]] + ReplaceTitle(list[1..], title, newConfig)
  }

  /** `list.filter(c => c.title !== title)`. */
  function RemoveTitle(list: seq<StreamConfig>, title: string): seq<StreamConfig>
    decreases |list|
  {
    if list == [] then []
    else if list[0].title != title then [list[0]] + RemoveTitle(list[1..], title)
    else RemoveTitle(list[1..], title)
  }

  /** How many records carry `title`. */
  function CountTitle(list: seq<StreamConfig>, title: string): nat
    decreases |list|
  {
    if list == [] then 0
    else (if list[0].title == title then 1 else 0) + CountTitle(list[1..], title)
  }

  /** Some record carries `title`. */
  predicate HasTitle(list: seq<StreamConfig>, title: string)
  {
    exists i :: 0 <= i < |list| && list[i].title == title
  }

  // ---------------------------------------------------------------------------
  // Properties of prepending (addStreamConfig)
  // ---------------------------------------------------------------------------

  /** Adding does not check for an existing title: a record whose title is
      already present gives one more record with that title. */
  lemma PrependAddsOneOfTitle(list: seq<StreamConfig>, config: StreamConfig)
    ensures CountTitle([config] + list, config.title) == CountTitle(list, config.title) + 1
  {
    assert ([config] + list)[1..] == list;
  }

  // ---------------------------------------------------------------------------
  // Properties of ReplaceTitle (updateStreamConfig)
  // ---------------------------------------------------------------------------

  /** Replacing keeps the length; each position whose title matches now holds
      the new record and every other position is unchanged. */
  lemma {:induction false} ReplaceTitlePointwise(list: seq<StreamConfig>, title: string, newConfig: StreamConfig)
    ensures |ReplaceTitle(list, title, newConfig)| == |list|
    ensures forall i :: 0 <= i < |list| ==>
      ReplaceTitle(list, title, newConfig)[i] == (if list[i].title == title then newConfig else list[i])
    decreases |list|
  {
    if list != [] {
      ReplaceTitlePointwise(list[1..], title, newConfig);
    }
  }

  /** Replacing a title that no record carries changes nothing. */
  lemma ReplaceAbsentTitle(list: seq<StreamConfig>, title: string, newConfig: StreamConfig)
    requires !HasTitle(list, title)
    ensures ReplaceTitle(list, title, newConfig) == list
  {
    ReplaceTitlePointwise(list, title, newConfig);
  }

  /** Replacing twice with the same record is the same as replacing once. */
  lemma ReplaceTitleIdempotent(list: seq<StreamConfig>, title: string, newConfig: StreamConfig)
    ensures ReplaceTitle(ReplaceTitle(list, title, newConfig), title, newConfig)
         == ReplaceTitle(list, title, newConfig)
  {
    var once := ReplaceTitle(list, title, newConfig);
    ReplaceTitlePointwise(list, title, newConfig);
    ReplaceTitlePointwise(once, title, newConfig);
  }

  /** A replacement record with a different title leaves no record carrying
      the old title. */
  lemma ReplaceRenames(list: seq<StreamConfig>, title: string, newConfig: StreamConfig)
    requires newConfig.title != title
    ensures !HasTitle(ReplaceTitle(list, title, newConfig), title)
  {
    ReplaceTitlePointwise(list, title, newConfig);
  }

  // ---------------------------------------------------------------------------
  // Properties of RemoveTitle (removeStreamConfig)
  // ---------------------------------------------------------------------------

  /** After removing, no record has the title; the records that remain are
      exactly the old records with another title, and as many as there were
      of those. */
  lemma {:induction false} RemoveTitleContents(list: seq<StreamConfig>, title: string)
    ensures !HasTitle(RemoveTitle(list, title), title)
    ensures forall c :: c in RemoveTitle(list, title) <==> c in list && c.title != title
    ensures |RemoveTitle(list, title)| + CountTitle(list, title) == |list|
    decreases |list|
  {
    if list != [] {
      RemoveTitleContents(list[1..], title);
      var rest := RemoveTitle(list[1..], title);
      if list[0].title != title {
        assert RemoveTitle(list, title) == [list[0]] + rest;
      }
      forall c ensures c in list <==> c == list[0] || c in list[1..] {
        assert list == [list[0]] + list[1..];
      }
    }
  }

  /** Removing keeps the order of what remains: it works piece by piece on a
      concatenation. */
  lemma {:induction false} RemoveTitleAppend(a: seq<StreamConfig>, b: seq<StreamConfig>, title: string)
    ensures RemoveTitle(a + b, title) == RemoveTitle(a, title) + RemoveTitle(b, title)
    decreases |a|
  {
    if a == [] {
      assert a + b == b;
    } else {
      RemoveTitleAppend(a[1..], b, title);
      assert (a + b)[0] == a[0];
      assert (a + b)[1..] == a[1..] + b;
    }
  }

  /** Removing a title that no record carries changes nothing. */
  lemma {:induction false} RemoveAbsentTitle(list: seq<StreamConfig>, title: string)
    requires !HasTitle(list, title)
    ensures RemoveTitle(list, title) == list
    decreases |list|
  {
    if list != [] {
      RemoveAbsentTitle(list[1..], title);
      assert list == [list[0]] + list[1..];
    }
  }

  /** Removing the same title twice is the same as removing it once. */
  lemma RemoveTitleIdempotent(list: seq<StreamConfig>, title: string)
    ensures RemoveTitle(RemoveTitle(list, title), title) == RemoveTitle(list, title)
  {
    RemoveTitleContents(list, title);
    RemoveAbsentTitle(RemoveTitle(list, title), title);
  }

  /** Removing a title undoes adding a record with that title, and replacing
      with a record of the same title does not change what removal leaves. */
  lemma RemoveUndoesAddAndReplace(list: seq<StreamConfig>, config: StreamConfig)
    ensures RemoveTitle([config] + list, config.title) == RemoveTitle(list, config.title)
    ensures RemoveTitle(ReplaceTitle(list, config.title, config), config.title) == RemoveTitle(list, config.title)
  {
    assert ([config] + list)[1..] == list;
    RemoveAfterReplace(list, config);
  }

  lemma {:induction false} RemoveAfterReplace(list: seq<StreamConfig>, config: StreamConfig)
    ensures RemoveTitle(ReplaceTitle(list, config.title, config), config.title) == RemoveTitle(list, config.title)
    decreases |list|
  {
    if list != [] {
      RemoveAfterReplace(list[1..], config);
    }
  }

  // ---------------------------------------------------------------------------
  // The store
  // ---------------------------------------------------------------------------

  /** The store's state: the current list of configurations. Each action is
      one atomic replacement of `streamConfigList`. */
  class Store {
    var streamConfigList: seq<StreamConfig>

    /** The store starts with an empty list. */
    constructor ()
      ensures streamConfigList == []
    {
      streamConfigList := [];
    }

    /** `initialData`: the list loaded from storage replaces the current one
        when it is present (an empty list counts as present); otherwise the
        current list stays. */
    method InitialData(loaded: Option<seq<StreamConfig>>)
      modifies this
      ensures loaded.Some? ==> streamConfigList == loaded.value
      ensures loaded.None? ==> streamConfigList == old(streamConfigList)
    {
      if loaded.Some? {
        streamConfigList := loaded.value;
      }
    }

    /** `addStreamConfig`: the new record goes first, the old ones follow in
        their order. */
    method AddStreamConfig(config: StreamConfig)
      modifies this
      ensures streamConfigList == [config] + old(streamConfigList)
      ensures |streamConfigList| == |old(streamConfigList)| + 1
      ensures CountTitle(streamConfigList, config.title) == CountTitle(old(streamConfigList), config.title) + 1
    {
      PrependAddsOneOfTitle(streamConfigList, config);
      streamConfigList := [config] + streamConfigList;
    }

    /** `updateStreamConfig`: every record titled `title` becomes
        `newConfig`, every other record stays where it was. */
    method UpdateStreamConfig(newConfig: StreamConfig, title: string)
      modifies this
      ensures streamConfigList == ReplaceTitle(old(streamConfigList), title, newConfig)
      ensures |streamConfigList| == |old(streamConfigList)|
      ensures forall i :: 0 <= i < |streamConfigList| ==>
        streamConfigList[i] == (if old(streamConfigList)[i].title == title then newConfig else old(streamConfigList)[i])
    {
      ReplaceTitlePointwise(streamConfigList, title, newConfig);
      streamConfigList := ReplaceTitle(streamConfigList, title, newConfig);
    }

    /** `removeStreamConfig`: every record titled `title` goes, the others
        stay in order. */
    method RemoveStreamConfig(title: string)
      modifies this
      ensures streamConfigList == RemoveTitle(old(streamConfigList), title)
      ensures !HasTitle(streamConfigList, title)
      ensures forall c :: c in streamConfigList <==> c in old(streamConfigList) && c.title != title
    {
      RemoveTitleContents(streamConfigList, title);
      streamConfigList := RemoveTitle(streamConfigList, title);
    }
  }
}
