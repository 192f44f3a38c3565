/**
 * Where the AO spawner panel finds the id of the process it spawned: it
 * dry-runs the Lua code against the system process and looks, in turn, at
 * the `process_id` in the data of the last message, the first spawn, and
 * the `process_id` of the output.
 */
module AoSpawner {
  import opened Wrappers
  import opened Json

  const AosProcess := "Sa0iBLPNyJQrwpTTG-tWLQU-1QeUAJA73DdxGGiKoJc"
  const ConnectFirst := "Please connect your wallet first"
  const DryrunErrorPrefix := "Dryrun error: "
  const NoProcessIdPrefix := "Failed to get process ID from spawn result. Full result: "

  /** What `v.length` and `v[i]` see: the elements of an array, the characters of a string, nothing for anything else. */
  function Items(v: Json): (r: seq<Json>)
    ensures v.Arr? ==> r == v.items
    ensures v.Str? ==> |r| == |v.s| && forall i :: 0 <= i < |r| ==> r[i] == Str([v.s[i]])
    ensures !v.Arr? && !v.Str? ==> r == []
  {
    match v
    case Arr(items) => items
    case Str(s) => seq(|s|, i requires 0 <= i < |s| => Str([s[i]]))
    case _ => []
  }

  /** `Messages[Messages.length - 1].Data`, when `Messages` is non-empty and that data is a non-empty string. */
  function LastData(result: Json): Option<string>
  {
    var messages := TruthyMember(result, "Messages");
    if messages.None? || |Items(messages.value)| == 0 then None
    else
      var last := Items(messages.value)[|Items(messages.value)| - 1];
      var data := TruthyMember(last, "Data");
      if data.None? || !data.value.Str? then None else Some(data.value.s)
  }

  /** The last message's data, parsed, and its `process_id` when truthy. */
  function FromMessages(result: Json, parse: string -> Option<Json>): Option<Json>
  {
    var data := LastData(result);
    if data.None? then None
    else
      var parsed := parse(data.value);
      if parsed.None? then None else TruthyMember(parsed.value, "process_id")
  }

  /** `Spawns[0]`, whatever it is, when `Spawns` is non-empty. */
  function FromSpawns(result: Json): Option<Json>
  {
    var spawns := TruthyMember(result, "Spawns");
    if spawns.None? || |Items(spawns.value)| == 0 then None else Some(Items(spawns.value)[0])
  }

  /** `Output.process_id` when truthy, `Output` being parsed first when it is a string. */
  function FromOutput(result: Json, parse: string -> Option<Json>): Option<Json>
  {
    var output := TruthyMember(result, "Output");
    if output.None? then None
    else
      var parsed := if output.value.Str? then parse(output.value.s) else Some(output.value);
      if parsed.None? then None else TruthyMember(parsed.value, "process_id")
  }

  /** The three places a process id is looked for, in the order they are tried. */
  function Sources(result: Json, parse: string -> Option<Json>): (r: seq<Option<Json>>)
    ensures |r| == 3
  {
    [FromMessages(result, parse), FromSpawns(result), FromOutput(result, parse)]
  }

  /** The first of the sources that gives an id. */
  function FirstSome(sources: seq<Option<Json>>): Option<Json>
  {
    if sources == [] then None
    else if sources[0].Some? then sources[0]
    else FirstSome(sources[1..])
  }

  /** The first source that gives an id is the one taken; none is taken only when none gives one. */
  lemma {:induction false} FirstSomeSpec(sources: seq<Option<Json>>)
    ensures forall id :: FirstSome(sources) == Some(id) <==>
      exists i :: 0 <= i < |sources| && sources[i] == Some(id) && forall j :: 0 <= j < i ==> sources[j].None?
    ensures FirstSome(sources).None? <==> forall i :: 0 <= i < |sources| ==> sources[i].None?
  {
    if sources != [] {
      FirstSomeSpec(sources[1..]);
      if sources[0].None? {
        forall id | FirstSome(sources) == Some(id)
          ensures exists i :: 0 <= i < |sources| && sources[i] == Some(id) && forall j :: 0 <= j < i ==> sources[j].None?
        {
          var i :| 0 <= i < |sources[1..]| && sources[1..][i] == Some(id) && forall j :: 0 <= j < i ==> sources[1..][j].None?;
          assert sources[i + 1] == Some(id);
          assert forall j :: 0 <= j < i + 1 ==> sources[j].None? by {
            forall j | 0 <= j < i + 1 ensures sources[j].None? {
              if j > 0 { assert sources[j] == sources[1..][j - 1]; }
            }
          }
        }
        forall id | exists i :: 0 <= i < |sources| && sources[i] == Some(id) && forall j :: 0 <= j < i ==> sources[j].None?
          ensures FirstSome(sources) == Some(id)
        {
          var i :| 0 <= i < |sources| && sources[i] == Some(id) && forall j :: 0 <= j < i ==> sources[j].None?;
          assert i > 0;
          assert sources[1..][i - 1] == Some(id);
          assert forall j :: 0 <= j < i - 1 ==> sources[1..][j].None? by {
            forall j | 0 <= j < i - 1 ensures sources[1..][j].None? {
              assert sources[1..][j] == sources[j + 1];
            }
          }
        }
        assert FirstSome(sources).None? <==> forall i :: 0 <= i < |sources| ==> sources[i].None? by {
          if FirstSome(sources).None? {
            forall i | 0 <= i < |sources| ensures sources[i].None? {
              if i > 0 { assert sources[i] == sources[1..][i - 1]; }
            }
          }
        }
      } else {
        assert 0 <= 0 < |sources| && sources[0] == FirstSome(sources);
      }
    }
  }

  /** Over the three sources, the first that gives an id. */
  lemma FirstOfThree(a: Option<Json>, b: Option<Json>, c: Option<Json>)
    ensures FirstSome([a, b, c]) == if a.Some? then a else if b.Some? then b else c
  {
    assert [a, b, c][1..] == [b, c];
    assert [b, c][1..] == [c];
    assert [c][1..] == [];
    assert FirstSome([c]) == c;
    assert FirstSome([b, c]) == if b.Some? then b else c;
  }

  /** The process id in a dry-run result, or the message of the error thrown for it. */
  function ExtractProcessId(result: Json, parse: string -> Option<Json>, stringify: Json -> string): Result<Json, string>
  {
    var error := TruthyMember(result, "Error");
    if error.Some? then Err(DryrunErrorPrefix + stringify(error.value))
    else
      var found := FirstSome(Sources(result, parse));
      if found.Some? then Ok(found.value) else Err(NoProcessIdPrefix + stringify(result))
  }

  /**
   * `handleSpawnProcess`: `call` is what the dry run gives (a result, or
   * the message of the error it throws) and is not consulted when no wallet
   * is connected.
   */
  function SpawnProcess(isConnected: bool, call: Result<Json, string>,
                        parse: string -> Option<Json>, stringify: Json -> string): Result<Json, string>
  {
    if !isConnected then Err(ConnectFirst)
    else if call.Err? then Err(call.error)
    else ExtractProcessId(call.value, parse, stringify)
  }

  /** Without a wallet the panel fails the same way whatever the dry run would have said. */
  lemma NotConnectedFirst(call1: Result<Json, string>, call2: Result<Json, string>,
                          parse: string -> Option<Json>, stringify: Json -> string)
    ensures SpawnProcess(false, call1, parse, stringify) == SpawnProcess(false, call2, parse, stringify) == Err(ConnectFirst)
  {
  }

  /**
   * A truthy `Error` fails with "Dryrun error: " and the serialised error,
   * before any source is looked at. Otherwise the id is the one given by
   * the first source that gives one, and when none does the panel fails
   * with the serialised result.
   */
  lemma Priority(result: Json, parse: string -> Option<Json>, stringify: Json -> string)
    ensures var r := ExtractProcessId(result, parse, stringify);
      var sources := Sources(result, parse);
      var error := TruthyMember(result, "Error");
      (error.Some? ==> r == Err(DryrunErrorPrefix + stringify(error.value)))
      && (error.None? ==>
            (forall id :: r == Ok(id) <==>
               exists i :: 0 <= i < 3 && sources[i] == Some(id) && forall j :: 0 <= j < i ==> sources[j].None?)
            && (r.Err? <==> forall i :: 0 <= i < 3 ==> sources[i].None?)
            && (r.Err? ==> r.error == NoProcessIdPrefix + stringify(result)))
  {
    FirstSomeSpec(Sources(result, parse));
  }

  /**
   * Data in the last message that does not parse is passed over: the
   * outcome is then decided by the spawns and the output alone.
   */
  lemma ParseFailureFallsThrough(result: Json, parse: string -> Option<Json>, stringify: Json -> string)
    requires TruthyMember(result, "Error").None?
    requires LastData(result).Some? && parse(LastData(result).value).None?
    ensures FromMessages(result, parse).None?
    ensures ExtractProcessId(result, parse, stringify).Ok? <==> FromSpawns(result).Some? || FromOutput(result, parse).Some?
  {
    FirstOfThree(FromMessages(result, parse), FromSpawns(result), FromOutput(result, parse));
  }

  /** The serialised error of a failing dry run starts with "Dryrun error: ", whatever the other fields hold. */
  lemma ErrorWins(result: Json, parse: string -> Option<Json>, stringify: Json -> string)
    requires TruthyMember(result, "Error").Some?
    ensures var r := ExtractProcessId(result, parse, stringify);
      r.Err? && |r.error| >= |DryrunErrorPrefix| && r.error[..|DryrunErrorPrefix|] == DryrunErrorPrefix
  {
  }

  /** An id in the last message's data wins over a spawn and over the output. */
  lemma MessagesBeforeSpawns(data: string, spawned: string, parse: string -> Option<Json>, stringify: Json -> string)
    requires data != "" && parse(data) == Some(Obj([("process_id", Str("from-message"))]))
    ensures var result := Obj([("Messages", Arr([Obj([("Data", Str(data))])])),
                               ("Spawns", Arr([Str(spawned)])),
                               ("Output", Obj([("process_id", Str("from-output"))]))]);
      ExtractProcessId(result, parse, stringify) == Ok(Str("from-message"))
  {
    var message := Obj([("Data", Str(data))]);
    var result := Obj([("Messages", Arr([message])),
                       ("Spawns", Arr([Str(spawned)])),
                       ("Output", Obj([("process_id", Str("from-output"))]))]);
    assert Member(result, "Error").None?;
    assert Member(result, "Messages") == Some(Arr([message]));
    assert Items(Arr([message])) == [message];
    assert Member(message, "Data") == Some(Str(data));
    assert LastData(result) == Some(data);
    assert Member(Obj([("process_id", Str("from-message"))]), "process_id") == Some(Str("from-message"));
    assert FromMessages(result, parse) == Some(Str("from-message"));
  }
}
