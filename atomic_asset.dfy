/**
 * The atomic asset panel: the asset creation form with its editable topic
 * list, the checks in front of a dry run, and the choice between fetching
 * one asset or several.
 */
module AtomicAsset {
  import opened Wrappers
  import PS = ProcessSpawner
  import AF = ArweaveForm

  /** The creation form; `metadata` holds only its `status` entry. */
  datatype AssetForm = AssetForm(
    name: string,
    description: string,
    topics: seq<string>,
    creator: string,
    data: string,
    contentType: string,
    assetType: string,
    status: string)

  const InitialForm := AssetForm("", "", [""], "", "", "text/plain", "", "Initial Status")

  const ConnectFirst := "Please connect your wallet first"
  const ProcessRequired := "Process ID is required for dryrun"
  const LuaRequired := "Please provide Lua code to execute"

  // ---------------------------------------------------------------- the topic list

  /** `{ ...formData, topics: [...formData.topics, ''] }`. */
  function AddTopic(f: AssetForm): AssetForm
  {
    f.(topics := f.topics + [""])
  }

  /** `{ ...formData, topics: formData.topics.filter((_, i) => i !== index) }`. */
  function RemoveTopic(f: AssetForm, index: int): AssetForm
  {
    f.(topics := AF.Without(f.topics, index))
  }

  /** `newTopics[index] = value` on a copy of the topics. */
  function ChangeTopic(f: AssetForm, index: nat, value: string): AssetForm
    requires index < |f.topics|
  {
    f.(topics := f.topics[index := value])
  }

  /** Adding a topic appends an empty one and leaves every other field of the form alone. */
  lemma AddTopicSpec(f: AssetForm)
    ensures var g := AddTopic(f);
      |g.topics| == |f.topics| + 1 && g.topics[..|f.topics|] == f.topics && g.topics[|f.topics|] == ""
      && g.(topics := f.topics) == f
  {
  }

  /**
   * Removing a topic drops only the one at the index, keeping the order of
   * the rest; an index outside the list leaves it as it is.
   */
  lemma RemoveTopicSpec(f: AssetForm, index: int)
    ensures var g := RemoveTopic(f, index);
      g.(topics := f.topics) == f
      && (0 <= index < |f.topics| ==>
            |g.topics| == |f.topics| - 1
            && (forall j :: 0 <= j < index ==> g.topics[j] == f.topics[j])
            && (forall j :: index <= j < |g.topics| ==> g.topics[j] == f.topics[j + 1]))
      && (!(0 <= index < |f.topics|) ==> g == f)
  {
    AF.WithoutSpec(f.topics, index);
  }

  /** Changing a topic replaces only the element at the index. */
  lemma ChangeTopicSpec(f: AssetForm, index: nat, value: string)
    requires index < |f.topics|
    ensures var g := ChangeTopic(f, index, value);
      |g.topics| == |f.topics| && g.topics[index] == value
      && (forall j :: 0 <= j < |f.topics| && j != index ==> g.topics[j] == f.topics[j])
      && g.(topics := f.topics) == f
  {
  }

  /** Removing the topic just added restores the form. */
  lemma RemoveAddedTopic(f: AssetForm)
    ensures RemoveTopic(AddTopic(f), |f.topics|) == f
  {
    AF.WithoutSpec(AddTopic(f).topics, |f.topics|);
    assert AddTopic(f).topics[..|f.topics|] == f.topics;
  }

  // ---------------------------------------------------------------- the dry run

  /** The call `handleDryrun` makes: the process, the Lua code as data, and one Action tag. */
  datatype DryrunCall = DryrunCall(process: string, data: string, tags: seq<PS.Tag>)

  /** A JavaScript value that is a string or `undefined`, tested for truthiness. */
  predicate Given(s: Option<string>)
  {
    s.Some? && s.value != ""
  }

  /** The checks of `handleDryrun`, in order, and the call they let through. */
  function DryrunRequest(walletAddress: string, processId: Option<string>, luaCode: Option<string>): (r: Result<DryrunCall, string>)
  {
    if walletAddress == "" then Err(ConnectFirst)
    else if !Given(processId) then Err(ProcessRequired)
    else if !Given(luaCode) then Err(LuaRequired)
    else Ok(DryrunCall(processId.value, luaCode.value, [PS.Tag("Action", "Dryrun")]))
  }

  /**
   * The wallet is checked first, then the process id, then the Lua code,
   * each with its own message, and only a request that passes all three
   * makes the call, carrying the process and the code.
   */
  lemma DryrunGuardOrder(walletAddress: string, processId: Option<string>, luaCode: Option<string>)
    ensures var r := DryrunRequest(walletAddress, processId, luaCode);
      (r == Err(ConnectFirst) <==> walletAddress == "")
      && (r == Err(ProcessRequired) <==> walletAddress != "" && !Given(processId))
      && (r == Err(LuaRequired) <==> walletAddress != "" && Given(processId) && !Given(luaCode))
      && (r.Ok? <==> walletAddress != "" && Given(processId) && Given(luaCode))
      && (r.Ok? ==> r.value.process == processId.value && r.value.data == luaCode.value)
  {
  }

  /** What the panel shows around a dry run. */
  datatype Panel = Panel(error: Option<string>, loading: bool, dryrunResult: Option<string>)

  /**
   * `handleDryrun`, where `outcome` is what the dry run call gives for the
   * request: a result, or the message of the `Error` it throws.
   */
  function Dryrun(walletAddress: string, processId: Option<string>, luaCode: Option<string>,
                  outcome: DryrunCall -> PS.Attempt, before: Panel): Panel
  {
    var request := DryrunRequest(walletAddress, processId, luaCode);
    if request.Err? then before.(error := Some(request.error))
    else
      var result := outcome(request.value);
      if result.Success? then Panel(Some(""), false, Some(result.value))
      else Panel(Some(result.message), false, before.dryrunResult)
  }

  /**
   * A rejected dry run only shows its error. One that goes ahead always
   * stops loading, and either clears the error and keeps the result, or
   * shows the message of the error thrown and keeps the previous result.
   */
  lemma DryrunSpec(walletAddress: string, processId: Option<string>, luaCode: Option<string>,
                   outcome: DryrunCall -> PS.Attempt, before: Panel)
    ensures var request := DryrunRequest(walletAddress, processId, luaCode);
      var after := Dryrun(walletAddress, processId, luaCode, outcome, before);
      (request.Err? ==> after == before.(error := Some(request.error)))
      && (request.Ok? ==>
            var result := outcome(request.value);
            !after.loading
            && (result.Success? ==> after.error == Some("") && after.dryrunResult == Some(result.value))
            && (result.Failure? ==> after.error == Some(result.message) && after.dryrunResult == before.dryrunResult))
  {
  }

  // ---------------------------------------------------------------- which assets to fetch

  datatype Fetch = FetchOne(assetId: string) | FetchMany(assetIds: seq<string>) | NoFetch

  /** The fetch effect: with the library and a wallet, one asset id wins over a list of them. */
  function FetchChoice(hasLibs: bool, walletAddress: string, assetId: Option<string>, assetIds: Option<seq<string>>): Fetch
  {
    if !hasLibs || walletAddress == "" then NoFetch
    else if Given(assetId) then FetchOne(assetId.value)
    else if assetIds.Some? && |assetIds.value| > 0 then FetchMany(assetIds.value)
    else NoFetch
  }

  /**
   * Nothing is fetched without the library or a wallet; otherwise an asset
   * id is fetched alone even when a non-empty list is also given, and the
   * list is fetched only when there is no asset id.
   */
  lemma FetchPrecedence(hasLibs: bool, walletAddress: string, assetId: Option<string>, assetIds: Option<seq<string>>)
    ensures var c := FetchChoice(hasLibs, walletAddress, assetId, assetIds);
      (c != NoFetch <==> hasLibs && walletAddress != "" && (Given(assetId) || (assetIds.Some? && |assetIds.value| > 0)))
      && (c.FetchOne? <==> hasLibs && walletAddress != "" && Given(assetId))
      && (c.FetchOne? ==> c.assetId == assetId.value)
      && (c.FetchMany? ==> !Given(assetId) && assetIds == Some(c.assetIds) && |c.assetIds| > 0)
  {
  }

  class AssetPanel {
    var formData: AssetForm
    var walletAddress: string
    var panel: Panel

    constructor()
      ensures formData == InitialForm && walletAddress == "" && panel == Panel(None, false, None)
    {
      formData := InitialForm;
      walletAddress := "";
      panel := Panel(None, false, None);
    }

    method HandleAddTopic()
      modifies this
      ensures formData == AddTopic(old(formData))
      ensures walletAddress == old(walletAddress) && panel == old(panel)
    {
      formData := formData.(topics := formData.topics + [""]);
    }

    method HandleRemoveTopic(index: int)
      modifies this
      ensures formData == RemoveTopic(old(formData), index)
      ensures walletAddress == old(walletAddress) && panel == old(panel)
    {
      formData := formData.(topics := AF.Without(formData.topics, index));
    }

    method HandleTopicChange(index: nat, value: string)
      requires index < |formData.topics|
      modifies this
      ensures formData == ChangeTopic(old(formData), index, value)
      ensures walletAddress == old(walletAddress) && panel == old(panel)
    {
      var newTopics := formData.topics;
      newTopics := newTopics[index := value];
      formData := formData.(topics := newTopics);
    }

    method HandleDryrun(processId: Option<string>, luaCode: Option<string>, outcome: DryrunCall -> PS.Attempt)
      modifies this
      ensures panel == Dryrun(walletAddress, processId, luaCode, outcome, old(panel))
      ensures formData == old(formData) && walletAddress == old(walletAddress)
    {
      if walletAddress == "" {
        panel := panel.(error := Some(ConnectFirst));
        return;
      }
      if !Given(processId) {
        panel := panel.(error := Some(ProcessRequired));
        return;
      }
      if !Given(luaCode) {
        panel := panel.(error := Some(LuaRequired));
        return;
      }
      panel := panel.(loading := true, error := Some(""));
      var result := outcome(DryrunCall(processId.value, luaCode.value, [PS.Tag("Action", "Dryrun")]));
      if result.Success? {
        panel := panel.(dryrunResult := Some(result.value));
      } else {
        panel := panel.(error := Some(result.message));
      }
      panel := panel.(loading := false);
    }
  }
}
