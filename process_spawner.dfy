/**
 * The process spawner panel: an editable list of extra tags, the request it
 * assembles from them (user tags that are filled in, an Authority tag unless
 * one is given, the Data-Protocol tag), and the spawn call retried over a
 * fixed list of gateways.
 */
module ProcessSpawner {
  import opened Wrappers

  datatype Tag = Tag(name: string, value: string)
  datatype TagField = Name | Value

  /** The fallback gateways, tried in this order. */
  const Gateways: seq<string> := ["https://arweave.net", "https://arweave.live", "https://ar-io.dev"]
  const DefaultScheduler := "_GQ33BkPtZrqxA84vM8Zk-N2aO0toNNu_C-l-rawrBA"
  const DefaultAuthority := "fcoN_xJeisVsPXA-trzVAuIiqO3ydLQxM-L4XbrQKzY"

  const EmptyTag := Tag("", "")
  const ModuleRequired := "Module TxID is required"
  const ConnectFirst := "Please connect your wallet first"
  const FailurePrefix := "Failed to spawn process: "
  const FailureSuffix := ". Trying different gateway..."
  const NoProcessId := "Failed to spawn process: No process ID returned"

  // ---------------------------------------------------------------- the tag list

  /** `newTags[index][field] = value`. */
  function ChangeTag(tags: seq<Tag>, index: nat, field: TagField, value: string): seq<Tag>
    requires index < |tags|
  {
    tags[index := if field == Name then tags[index].(name := value) else tags[index].(value := value)]
  }

  /** `[...tags, { name: '', value: '' }]`. */
  function AddTag(tags: seq<Tag>): seq<Tag>
  {
    tags + [EmptyTag]
  }

  /** Where `splice(index, 1)` starts: a negative index counts from the end. */
  function SpliceStart(index: int, len: nat): (start: nat)
    ensures start <= len
  {
    if index < 0 then (if len + index < 0 then 0 else len + index)
    else if index > len then len
    else index
  }

  /** `newTags.splice(index, 1)`. */
  function RemoveTag(tags: seq<Tag>, index: int): seq<Tag>
  {
    var start := SpliceStart(index, |tags|);
    if start < |tags| then tags[..start] + tags[start + 1..] else tags
  }

  /** Changing a tag sets only the named field of the tag at the index. */
  lemma ChangeTagSpec(tags: seq<Tag>, index: nat, field: TagField, value: string)
    requires index < |tags|
    ensures var r := ChangeTag(tags, index, field, value);
      |r| == |tags|
      && (forall j :: 0 <= j < |tags| && j != index ==> r[j] == tags[j])
      && r[index].name == (if field == Name then value else tags[index].name)
      && r[index].value == (if field == Value then value else tags[index].value)
  {
  }

  /** Adding a tag keeps the existing ones and appends one empty tag. */
  lemma AddTagSpec(tags: seq<Tag>)
    ensures var r := AddTag(tags);
      |r| == |tags| + 1 && r[..|tags|] == tags && r[|tags|] == EmptyTag
  {
  }

  /**
   * Removing a tag at an index within the list deletes that tag alone: the
   * tags before it stay in place, the tags after it move down by one.
   */
  lemma RemoveTagSpec(tags: seq<Tag>, index: nat)
    requires index < |tags|
    ensures var r := RemoveTag(tags, index);
      |r| == |tags| - 1
      && (forall j :: 0 <= j < index ==> r[j] == tags[j])
      && (forall j :: index <= j < |r| ==> r[j] == tags[j + 1])
      && multiset(r) + multiset{tags[index]} == multiset(tags)
  {
    var r := RemoveTag(tags, index);
    assert tags == tags[..index] + [tags[index]] + tags[index + 1..];
  }

  /** An index past the end removes nothing; a negative one counts from the end. */
  lemma RemoveTagOutside(tags: seq<Tag>, index: int)
    ensures index >= |tags| ==> RemoveTag(tags, index) == tags
    ensures -|tags| <= index < 0 ==> RemoveTag(tags, index) == RemoveTag(tags, |tags| + index)
  {
  }

  /** Removing the tag just added restores the list. */
  lemma RemoveAdded(tags: seq<Tag>)
    ensures RemoveTag(AddTag(tags), |tags|) == tags
  {
    assert AddTag(tags)[..|tags|] == tags;
  }

  // ---------------------------------------------------------------- the spawn request

  /** `tags.filter(tag => tag.name && tag.value)`. */
  function Filled(tags: seq<Tag>): (r: seq<Tag>)
    ensures forall t :: t in r <==> t in tags && t.name != "" && t.value != ""
  {
    if tags == [] then []
    else if tags[0].name != "" && tags[0].value != "" then [tags[0]] + Filled(tags[1..])
    else Filled(tags[1..])
  }

  /** Filtering keeps the order: it distributes over concatenation. */
  lemma {:induction false} FilledAppend(a: seq<Tag>, b: seq<Tag>)
    ensures Filled(a + b) == Filled(a) + Filled(b)
  {
    if a != [] {
      assert (a + b)[1..] == a[1..] + b;
      FilledAppend(a[1..], b);
    } else {
      assert a + b == b;
    }
  }

  predicate HasAuthority(tags: seq<Tag>)
  {
    exists i :: 0 <= i < |tags| && tags[i].name == "Authority"
  }

  /** `a || b` on strings. */
  function OrElse(a: string, b: string): (r: string)
    ensures r != "" ==> r == a || r == b
    ensures a != "" ==> r == a
    ensures a == "" ==> r == b
  {
    if a != "" then a else b
  }

  /** The tags sent with the spawn: the filled-in tags, an Authority tag if none of them is one, and the Data-Protocol tag. */
  function SpawnTags(tags: seq<Tag>, customAuthority: string): seq<Tag>
  {
    var kept := Filled(tags);
    var withAuthority := if HasAuthority(kept) then kept else kept + [Tag("Authority", OrElse(customAuthority, DefaultAuthority))];
    withAuthority + [Tag("Data-Protocol", "ao")]
  }

  /**
   * The spawn tags begin with the filled-in user tags in their order, then
   * add an Authority tag exactly when none of those is named Authority, and
   * always end with `Data-Protocol: ao`; so an Authority tag is always sent.
   */
  lemma SpawnTagsSpec(tags: seq<Tag>, customAuthority: string)
    ensures var kept := Filled(tags);
      var r := SpawnTags(tags, customAuthority);
      r[..|kept|] == kept
      && |r| == |kept| + (if HasAuthority(kept) then 1 else 2)
      && r[|r| - 1] == Tag("Data-Protocol", "ao")
      && (!HasAuthority(kept) ==> r[|kept|] == Tag("Authority", OrElse(customAuthority, DefaultAuthority)))
      && HasAuthority(r)
  {
    var kept := Filled(tags);
    var r := SpawnTags(tags, customAuthority);
    if HasAuthority(kept) {
      var i :| 0 <= i < |kept| && kept[i].name == "Authority";
      assert r[i] == kept[i];
    } else {
      assert r[|kept|].name == "Authority";
    }
  }

  datatype SpawnData = SpawnData(moduleId: string, scheduler: string, tags: seq<Tag>)

  /** The checks of `handleSpawn`, in order, and the request they let through. */
  function SpawnRequest(moduleTxId: string, walletAddress: string, tags: seq<Tag>,
                        customAuthority: string, customScheduler: string): Result<SpawnData, string>
  {
    if moduleTxId == "" then Err(ModuleRequired)
    else if walletAddress == "" then Err(ConnectFirst)
    else Ok(SpawnData(moduleTxId, OrElse(customScheduler, DefaultScheduler), SpawnTags(tags, customAuthority)))
  }

  /**
   * The module id is checked before the wallet, and a request that passes
   * both carries the module, the custom scheduler unless it is empty, and
   * the assembled tags.
   */
  lemma SpawnRequestSpec(moduleTxId: string, walletAddress: string, tags: seq<Tag>,
                         customAuthority: string, customScheduler: string)
    ensures var r := SpawnRequest(moduleTxId, walletAddress, tags, customAuthority, customScheduler);
      (moduleTxId == "" <==> r == Err(ModuleRequired))
      && (moduleTxId != "" && walletAddress == "" <==> r == Err(ConnectFirst))
      && (r.Ok? <==> moduleTxId != "" && walletAddress != "")
      && (r.Ok? ==> r.value.moduleId == moduleTxId
                    && r.value.scheduler == (if customScheduler != "" then customScheduler else DefaultScheduler)
                    && r.value.tags == SpawnTags(tags, customAuthority))
  {
  }

  // ---------------------------------------------------------------- retrying over the gateways

  /** What one call of the spawn function gives: a value or a thrown error's message. */
  datatype Attempt = Success(value: string) | Failure(message: string)

  /**
   * `tryWithFallbackGateways(fn, attempt)`, where `spawn(data, k)` is what
   * the `k`-th call of `fn` gives: the outcome it returns or rethrows, and
   * the current gateway afterwards.
   */
  function Retry(spawn: (SpawnData, nat) -> Attempt, data: SpawnData, attempt: nat, gateway: string): (Attempt, string)
    decreases |Gateways| - attempt
  {
    var outcome := spawn(data, attempt);
    if outcome.Success? || attempt >= |Gateways| - 1 then (outcome, gateway)
    else Retry(spawn, data, attempt + 1, Gateways[attempt + 1])
  }

  /**
   * Starting from a gateway index, some call `k` at or after it is the last
   * one made: every earlier call failed, it stops at the first success or
   * at the last gateway (so at most three calls are made from the first),
   * its outcome is the result, and the current gateway is the `k`-th one
   * (unchanged when the first call is the last).
   */
  lemma {:induction false} RetrySpec(spawn: (SpawnData, nat) -> Attempt, data: SpawnData, attempt: nat, gateway: string)
    requires attempt < |Gateways|
    ensures var (r, g) := Retry(spawn, data, attempt, gateway);
      exists k :: attempt <= k < |Gateways| && r == spawn(data, k)
        && (forall j :: attempt <= j < k ==> spawn(data, j).Failure?)
        && (r.Success? || k == |Gateways| - 1)
        && g == (if k == attempt then gateway else Gateways[k])
    decreases |Gateways| - attempt
  {
    var outcome := spawn(data, attempt);
    if outcome.Success? || attempt >= |Gateways| - 1 {
      assert attempt <= attempt < |Gateways|;
    } else {
      RetrySpec(spawn, data, attempt + 1, Gateways[attempt + 1]);
      var (r, g) := Retry(spawn, data, attempt + 1, Gateways[attempt + 1]);
      var k :| attempt + 1 <= k < |Gateways| && r == spawn(data, k)
        && (forall j :: attempt + 1 <= j < k ==> spawn(data, j).Failure?)
        && (r.Success? || k == |Gateways| - 1)
        && g == (if k == attempt + 1 then Gateways[attempt + 1] else Gateways[k]);
      assert forall j :: attempt <= j < k ==> spawn(data, j).Failure?;
    }
  }

  /** From the first gateway the spawn succeeds exactly when one of the three calls does. */
  lemma RetrySucceeds(spawn: (SpawnData, nat) -> Attempt, data: SpawnData, gateway: string)
    ensures Retry(spawn, data, 0, gateway).0.Success? <==> exists k :: 0 <= k < |Gateways| && spawn(data, k).Success?
  {
    RetrySpec(spawn, data, 0, gateway);
  }

  // ---------------------------------------------------------------- the panel

  /** What `handleSpawn` leaves on the panel. */
  datatype Status = Status(error: string, processId: string, currentGateway: string, isLoading: bool)

  /** `handleSpawn`: the checks, the retried spawn, and what the panel shows afterwards. */
  function Spawn(moduleTxId: string, walletAddress: string, tags: seq<Tag>, customAuthority: string,
                 customScheduler: string, spawn: (SpawnData, nat) -> Attempt, before: Status): Status
  {
    var request := SpawnRequest(moduleTxId, walletAddress, tags, customAuthority, customScheduler);
    if request.Err? then before.(error := request.error)
    else
      var (outcome, gateway) := Retry(spawn, request.value, 0, before.currentGateway);
      if outcome.Success? && outcome.value != "" then Status("", outcome.value, gateway, false)
      else
        var message := if outcome.Success? then NoProcessId else outcome.message;
        Status(FailurePrefix + message + FailureSuffix, before.processId, gateway, false)
  }

  /**
   * A rejected request only shows its error. Otherwise the panel stops
   * loading, and shows the process id with no error exactly when the
   * retried spawn returned a non-empty id; else it keeps the previous id
   * and shows a failure message.
   */
  lemma SpawnSpec(moduleTxId: string, walletAddress: string, tags: seq<Tag>, customAuthority: string,
                  customScheduler: string, spawn: (SpawnData, nat) -> Attempt, before: Status)
    ensures var request := SpawnRequest(moduleTxId, walletAddress, tags, customAuthority, customScheduler);
      var after := Spawn(moduleTxId, walletAddress, tags, customAuthority, customScheduler, spawn, before);
      (request.Err? ==> after == before.(error := request.error))
      && (request.Ok? ==>
            var outcome := Retry(spawn, request.value, 0, before.currentGateway).0;
            !after.isLoading
            && (after.error == "" <==> outcome.Success? && outcome.value != "")
            && (after.error == "" ==> after.processId == outcome.value)
            && (after.error != "" ==> after.processId == before.processId))
  {
  }

  class Spawner {
    var moduleTxId: string
    var customScheduler: string
    var customAuthority: string
    var tags: seq<Tag>
    var walletAddress: string
    var status: Status

    constructor()
      ensures moduleTxId == "" && customScheduler == "" && customAuthority == "" && walletAddress == ""
      ensures tags == [EmptyTag]
      ensures status == Status("", "", Gateways[0], false)
    {
      moduleTxId, customScheduler, customAuthority, walletAddress := "", "", "", "";
      tags := [EmptyTag];
      status := Status("", "", Gateways[0], false);
    }

    method HandleTagChange(index: nat, field: TagField, value: string)
      requires index < |tags|
      modifies this
      ensures tags == ChangeTag(old(tags), index, field, value)
      ensures moduleTxId == old(moduleTxId) && customScheduler == old(customScheduler)
      ensures customAuthority == old(customAuthority) && walletAddress == old(walletAddress) && status == old(status)
    {
      var newTags := tags;
      if field == Name {
        newTags := newTags[index := newTags[index].(name := value)];
      } else {
        newTags := newTags[index := newTags[index].(value := value)];
      }
      tags := newTags;
    }

    method AddTagRow()
      modifies this
      ensures tags == AddTag(old(tags))
      ensures moduleTxId == old(moduleTxId) && customScheduler == old(customScheduler)
      ensures customAuthority == old(customAuthority) && walletAddress == old(walletAddress) && status == old(status)
    {
      tags := tags + [EmptyTag];
    }

    method RemoveTagRow(index: int)
      modifies this
      ensures tags == RemoveTag(old(tags), index)
      ensures moduleTxId == old(moduleTxId) && customScheduler == old(customScheduler)
      ensures customAuthority == old(customAuthority) && walletAddress == old(walletAddress) && status == old(status)
    {
      var start := SpliceStart(index, |tags|);
      if start < |tags| {
        tags := tags[..start] + tags[start + 1..];
      }
    }

    /** Calls the spawn function, moving to the next gateway after each failure but the last. */
    method TryWithFallbackGateways(spawn: (SpawnData, nat) -> Attempt, data: SpawnData, attempt: nat)
      returns (outcome: Attempt)
      modifies this
      ensures (outcome, status.currentGateway) == Retry(spawn, data, attempt, old(status.currentGateway))
      ensures status == old(status).(currentGateway := status.currentGateway)
      ensures tags == old(tags) && moduleTxId == old(moduleTxId) && customScheduler == old(customScheduler)
      ensures customAuthority == old(customAuthority) && walletAddress == old(walletAddress)
      decreases |Gateways| - attempt
    {
      outcome := spawn(data, attempt);
      if outcome.Failure? && attempt < |Gateways| - 1 {
        status := status.(currentGateway := Gateways[attempt + 1]);
        outcome := TryWithFallbackGateways(spawn, data, attempt + 1);
      }
    }

    method HandleSpawn(spawn: (SpawnData, nat) -> Attempt)
      modifies this
      ensures status == Spawn(moduleTxId, walletAddress, tags, customAuthority, customScheduler, spawn, old(status))
      ensures tags == old(tags) && moduleTxId == old(moduleTxId) && customScheduler == old(customScheduler)
      ensures customAuthority == old(customAuthority) && walletAddress == old(walletAddress)
    {
      if moduleTxId == "" {
        status := status.(error := ModuleRequired);
        return;
      }
      if walletAddress == "" {
        status := status.(error := ConnectFirst);
        return;
      }
      status := status.(isLoading := true, error := "");
      var filteredTags := Filled(tags);
      if !HasAuthority(filteredTags) {
        filteredTags := filteredTags + [Tag("Authority", OrElse(customAuthority, DefaultAuthority))];
      }
      filteredTags := filteredTags + [Tag("Data-Protocol", "ao")];
      var data := SpawnData(moduleTxId, OrElse(customScheduler, DefaultScheduler), filteredTags);
      var result := TryWithFallbackGateways(spawn, data, 0);
      if result.Success? && result.value != "" {
        status := status.(processId := result.value);
      } else {
        var message := if result.Success? then NoProcessId else result.message;
        status := status.(error := FailurePrefix + message + FailureSuffix);
      }
      status := status.(isLoading := false);
    }
  }
}
