/**
 * The glue of the builder page (src/components/Builder.tsx) around the
 * composition store: selection lookup, dotted-path property edits, the
 * preview-prop overlay, the render and property-panel dispatch with their
 * fallbacks, the generated snippet for one component, the FlowingMenu item
 * editors, comma-separated list fields, and the page's own handlers.
 */
module BuilderPage {
  import opened Wrappers
  import opened Json
  import Assoc
  import S = JsString
  import C = Composition
  import PP = PropertyPath
  import UseBuilder

  // ---------------------------------------------------------------- lookup and selection

  /** `cs.find(comp => comp.id === id)`: the instance at the first position holding that id. */
  function FindById(cs: seq<C.Component>, id: string): (r: Option<C.Component>)
    ensures r == match C.IndexOfId(cs, id) case None => None case Some(i) => Some(cs[i])
  {
    if cs == [] then None
    else if cs[0].id == id then Some(cs[0])
    else FindById(cs[1..], id)
  }

  /**
   * `getSelectedComponent()`: nothing when no (or an empty) id is selected;
   * otherwise the first instance with that id across all zones, if any.
   */
  function GetSelectedComponent(s: C.BuilderState, selectedId: Option<string>): (r: Option<C.Component>)
    ensures r.Some? ==> selectedId.Some? && selectedId.value != "" && r.value.id == selectedId.value
                        && r.value in C.AllChildren(s.dropZones)
    ensures r.None? <==> selectedId.None? || selectedId.value == ""
                         || selectedId.value !in C.Ids(C.AllChildren(s.dropZones))
  {
    if selectedId.None? || selectedId.value == "" then None
    else FindById(C.AllChildren(s.dropZones), selectedId.value)
  }

  // ---------------------------------------------------------------- handlePropertyChange

  /**
   * `handlePropertyChange(id, key, value)`: the first instance with that id
   * across all zones supplies the props; the dotted key is set in a copy of
   * them, and the whole result is passed to `updateComponent`. An unknown id,
   * or a path through a truthy non-object (where the source throws), leaves
   * the state as it is.
   */
  function PropertyChange(s: C.BuilderState, id: string, key: string, value: Json): (r: C.BuilderState)
    ensures r.components == s.components && r.selectedComponent == s.selectedComponent
    ensures C.Skeleton(r.dropZones) == C.Skeleton(s.dropZones)
    ensures id !in C.Ids(C.AllChildren(s.dropZones)) ==> r == s
  {
    match FindById(C.AllChildren(s.dropZones), id)
    case None => s
    case Some(c) =>
      match PP.SetPath(c.props, S.Split(key, '.'), value)
      case None => s
      case Some(updated) => C.UpdateComponent(s, id, updated)
  }

  /** Reading a path only depends on the first segment's member. */
  lemma ReadPathByFirst(a: Props, b: Props, q: seq<string>)
    requires |q| >= 1 && Assoc.Get(a, q[0]) == Assoc.Get(b, q[0])
    ensures PP.ReadPath(a, q) == PP.ReadPath(b, q)
  {
  }

  /** Instance `k` of zone `zone` is the first one with that id across all zones. */
  ghost predicate IsFirstMatch(s: C.BuilderState, id: string, zone: nat, k: nat)
  {
    zone < |s.dropZones| && k < |s.dropZones[zone].children|
    && FindById(C.AllChildren(s.dropZones), id) == Some(s.dropZones[zone].children[k])
  }

  /**
   * After a successful edit the edited instance reads the new value at the
   * path, and every path that parts ways with it reads as before.
   */
  lemma PropertyChangeOnFirstMatch(s: C.BuilderState, id: string, key: string, value: Json,
                                   zone: nat, k: nat, q: seq<string>)
    requires IsFirstMatch(s, id, zone, k)
    requires Assoc.UniqueKeys(s.dropZones[zone].children[k].props)
    requires PP.SetPath(s.dropZones[zone].children[k].props, S.Split(key, '.'), value).Some?
    requires |q| >= 1 && PP.Diverge(q, S.Split(key, '.'))
    ensures var after := PropertyChange(s, id, key, value).dropZones[zone].children[k];
      PP.ReadPath(after.props, S.Split(key, '.')) == Some(value)
      && PP.ReadPath(after.props, q) == PP.ReadPath(s.dropZones[zone].children[k].props, q)
  {
    var c := s.dropZones[zone].children[k];
    PropertyChangeStores(s, id, key, value, zone, k);
    MergedEditReads(c.props, S.Split(key, '.'), value, q);
  }

  /** The first match's props become its old props spread with the edited copy. */
  lemma PropertyChangeStores(s: C.BuilderState, id: string, key: string, value: Json, zone: nat, k: nat)
    requires IsFirstMatch(s, id, zone, k)
    requires PP.SetPath(s.dropZones[zone].children[k].props, S.Split(key, '.'), value).Some?
    ensures var c := s.dropZones[zone].children[k];
      PropertyChange(s, id, key, value).dropZones[zone].children[k].props
        == Assoc.Merge(c.props, PP.SetPath(c.props, S.Split(key, '.'), value).value)
  {
    var c := s.dropZones[zone].children[k];
    assert FindById(C.AllChildren(s.dropZones), id) == Some(c);
    assert c.id == id by {
      assert C.IndexOfId(C.AllChildren(s.dropZones), id).Some?;
    }
  }

  /**
   * Spreading the edited copy over the props it came from: the path reads
   * the new value, and a path that parts ways with it reads as before.
   */
  lemma MergedEditReads(props: Props, keys: seq<string>, value: Json, q: seq<string>)
    requires Assoc.UniqueKeys(props) && |keys| >= 1
    requires PP.SetPath(props, keys, value).Some?
    requires |q| >= 1 && PP.Diverge(q, keys)
    ensures var merged := Assoc.Merge(props, PP.SetPath(props, keys, value).value);
      PP.ReadPath(merged, keys) == Some(value) && PP.ReadPath(merged, q) == PP.ReadPath(props, q)
  {
    var updated := PP.SetPath(props, keys, value).value;
    PP.SetPathUnique(props, keys, value);
    PP.SetPathThenRead(props, keys, value);
    PP.SetPathKeepsSiblings(props, keys, value, q);
    var merged := Assoc.Merge(props, updated);
    forall f | f in Assoc.Keys(props) ensures f in Assoc.Keys(updated) { }
    Assoc.MergeGet(props, updated, keys[0]);
    Assoc.MergeGet(props, updated, q[0]);
    ReadPathByFirst(merged, updated, keys);
    ReadPathByFirst(merged, updated, q);
  }

  /** A path through a truthy non-object leaves the state as it is. */
  lemma PropertyChangeBlocked(s: C.BuilderState, id: string, key: string, value: Json)
    requires FindById(C.AllChildren(s.dropZones), id).Some?
    requires PP.SetPath(FindById(C.AllChildren(s.dropZones), id).value.props, S.Split(key, '.'), value).None?
    ensures PropertyChange(s, id, key, value) == s
  {
  }

  // ---------------------------------------------------------------- preview props

  const WalletLuaCode: string :=
    "-- Add your Lua handlers here\n-- Example:\n-- function onConnect(address)\n--   print('Connected:', address)\n-- end\n\n-- function onDisconnect()\n--   print('Disconnected')\n-- end"

  const ArweaveFormLuaCode: string :=
    "-- Add your Lua handlers here\nfunction onConnect(address)\n  print('Connected:', address)\nend\n\nfunction onDisconnect()\n  print('Disconnected')\nend\n\nfunction onTransaction(tx)\n  print('Transaction:', tx)\nend"

  const MessageSignerLuaCode: string :=
    "-- Message signing handler\nfunction signMessage(message)\n  -- Get the wallet address\n  local address = ao.getActiveAddress()\n  \n  -- Create a signature\n  local signature = ao.signMessage(message)\n  \n  -- Return the signature\n  return {\n    address = address,\n    signature = signature\n  }\nend\n\n-- Example usage:\n-- local result = signMessage(\"Hello, Arweave!\")\n-- print(\"Address:\", result.address)\n-- print(\"Signature:\", result.signature)"

  const NftLuaCode: string :=
    "-- NFT transfer handler\nfunction transferNFT(to, tokenId)\n  -- Get the current owner\n  local currentOwner = ao.getActiveAddress()\n  \n  -- Check if the sender is the owner\n  if currentOwner ~= owner then\n    return {\n      success = false,\n      error = \"Only the owner can transfer this NFT\"\n    }\n  end\n  \n  -- Transfer the NFT\n  local result = ao.transferNFT(to, tokenId)\n  \n  -- Return the result\n  return {\n    success = true,\n    transactionId = result.id\n  }\nend\n\n-- Example usage:\n-- local result = transferNFT(\"recipient-address\", \"token-id\")\n-- print(\"Transfer result:\", result)"

  const MenuImageUrl: string :=
    "https://images.unsplash.com/photo-1682687220063-4742bd7fd538?q=80&w=1000&auto=format&fit=crop"

  function MenuEntry(text: string): Json
  {
    Obj([("link", Str("#")), ("text", Str(text)), ("image", Str(MenuImageUrl))])
  }

  const PreviewLinks: Json :=
    Arr([Obj([("label", Str("Home")), ("href", Str("#"))]), Obj([("label", Str("About")), ("href", Str("#"))])])

  /** The `defaultProps` table; `None` for a type it has no entry for. */
  function DefaultProps(componentType: string): Option<Props>
  {
    match componentType
    case "Button" => Some([("text", Str("Preview Button")), ("variant", Str("primary")), ("size", Str("md"))])
    case "Navbar" => Some([("title", Str("Preview Navbar")), ("variant", Str("light")),
                           ("position", Str("static")), ("links", PreviewLinks)])
    case "NavbarDark" => Some([("title", Str("Preview Navbar")), ("position", Str("static")), ("links", PreviewLinks)])
    case "Header" => Some([("title", Str("Preview Header")), ("textColor", Str("light")), ("height", Str("md")),
                           ("ctaButton", Obj([("text", Str("Get Started")), ("href", Str("#")),
                                              ("buttonType", Str("default")), ("variant", Str("primary")),
                                              ("size", Str("md"))]))])
    case "GridDistortion" => Some([])
    case "BottomNavbar" => Some([("activeTab", Str("home"))])
    case "StarBorder" => Some([("children", Str("Star Border Button")), ("color", Str("#007bff")), ("speed", Str("6s"))])
    case "wallet" => Some([("variant", Str("default")), ("size", Str("md")), ("showAddress", Bool(false)),
                           ("addressDisplayLength", Num(6)), ("luaCode", Str(WalletLuaCode)),
                           ("aoProcessId", Str("")), ("className", Str("")), ("style", Obj([]))])
    case "ardacity-navbar" => Some([("variant", Str("default"))])
    case "arweave-form" => Some([("title", Str("Create Arweave Transaction")), ("initialLuaCode", Str(ArweaveFormLuaCode))])
    case "message-signer" => Some([("title", Str("Sign Message with Lua")), ("initialLuaCode", Str(MessageSignerLuaCode))])
    case "nft" => Some([("title", Str("My Arweave NFT")), ("initialLuaCode", Str(NftLuaCode))])
    case "credentials-navbar" => Some([("activeTab", Str("home")),
                                       ("socialLinks", Obj([("instagram", Str("https://instagram.com/your-username")),
                                                            ("twitter", Str("https://twitter.com/your-username")),
                                                            ("facebook", Str("https://facebook.com/your-username")),
                                                            ("linkedin", Str("https://linkedin.com/in/your-username")),
                                                            ("github", Str("https://github.com/your-username")),
                                                            ("discord", Str("https://discord.gg/your-server")),
                                                            ("telegram", Str("https://t.me/your-username"))]))])
    case "DecryptedText" => Some([("text", Str("Decrypted Text")), ("speed", Num(50)), ("maxIterations", Num(10)),
                                  ("sequential", Bool(false)), ("revealDirection", Str("start")),
                                  ("useOriginalCharsOnly", Bool(false)),
                                  ("characters", Str("ABCDEFGHIJKLMNOPQRSTUVWXYZabcdefghijklmnopqrstuvwxyz!@#$%^&*()_+")),
                                  ("className", Str("text-blue-500")), ("parentClassName", Str("text-2xl font-bold")),
                                  ("encryptedClassName", Str("text-gray-400")), ("animateOn", Str("hover"))])
    case "FlowingMenu" => Some([("items", Arr([MenuEntry("Home"), MenuEntry("About"), MenuEntry("Contact")])),
                                ("className", Str("h-screen"))])
    case "TextPressure" => Some([("text", Str("Press me!"))])
    case "leaderboard" => Some([("processId", Str("N_boXL20JQirhENJyfml_Geaa5cofYG8BieNA0uKZ6U")),
                                ("title", Str("AO Leaderboard")), ("limit", Num(10))])
    case _ => None
  }

  /** `{...defaultProps[type], ...component.props}`; spreading a missing entry adds nothing. */
  function PreviewProps(c: C.Component): Props
  {
    Assoc.Merge(match DefaultProps(c.componentType) case None => [] case Some(d) => d, c.props)
  }

  /** Instance keys win, defaults fill the gaps, and a type without defaults shows its own props only. */
  lemma PreviewOverlay(c: C.Component, k: string)
    requires Assoc.UniqueKeys(c.props)
    ensures Assoc.Get(PreviewProps(c), k) ==
      if k in Assoc.Keys(c.props) then Assoc.Get(c.props, k)
      else match DefaultProps(c.componentType) case None => None case Some(d) => Assoc.Get(d, k)
  {
    Assoc.MergeGet(match DefaultProps(c.componentType) case None => [] case Some(d) => d, c.props, k);
  }

  /** Without a defaults entry the preview props are exactly the instance props. */
  lemma PreviewWithoutDefaults(c: C.Component)
    requires DefaultProps(c.componentType).None? && Assoc.UniqueKeys(c.props)
    ensures PreviewProps(c) == c.props
  {
    Assoc.SpreadIntoEmpty(c.props);
  }

  /** Overlay key order: the defaults' keys first, then the instance's own new keys. */
  lemma PreviewKeyOrder(c: C.Component)
    requires Assoc.UniqueKeys(c.props) && DefaultProps(c.componentType).Some?
    ensures Assoc.Keys(PreviewProps(c)) ==
      Assoc.Keys(DefaultProps(c.componentType).value)
      + Assoc.NewKeys(Assoc.Keys(c.props), Assoc.Keys(DefaultProps(c.componentType).value))
  {
    Assoc.MergeKeys(DefaultProps(c.componentType).value, c.props);
  }

  // ---------------------------------------------------------------- renderComponent

  /** What the canvas draws for an instance. */
  datatype Rendering =
    | Widget(kind: string, props: Props)              // the library component, given these props
    | WidgetFor(kind: string, component: C.Component)  // a wrapper handed the instance itself
    | NameOnly(name: string)                          // the fallback `<div>{name}</div>`

  /** The types `renderComponent` has a case for. */
  const RenderedTypes: seq<string> := [
    "Button", "Navbar", "NavbarDark", "Header", "GridDistortion", "BottomNavbar", "StarBorder",
    "wallet", "ardacity-navbar", "arweave-form", "message-signer", "nft", "credentials-navbar",
    "DecryptedText", "FlowingMenu", "TextPressure", "PermawebProfile", "PermawebAtomicAsset",
    "ProcessSpawner", "AOSpawner", "smooth-scroll-hero", "dropdown-navbar", "clip-path-links",
    "landing-page-one", "leaderboard"]

  /**
   * `renderComponent()`: most types get the overlaid preview props;
   * GridDistortion gets an empty `imageSrc` that the props may override,
   * TextPressure gets the raw instance props, the two Permaweb wrappers get
   * the instance, and an unknown type shows only its name.
   */
  function Render(c: C.Component): (r: Rendering)
    ensures r.NameOnly? <==> c.componentType !in RenderedTypes
    ensures r.NameOnly? ==> r.name == c.name
    ensures r.Widget? || r.WidgetFor? ==> r.kind == c.componentType
    ensures r.WidgetFor? <==> c.componentType in ["PermawebProfile", "PermawebAtomicAsset"]
  {
    var t := c.componentType;
    if t !in RenderedTypes then NameOnly(c.name)
    else if t == "GridDistortion" then Widget(t, Assoc.Merge([("imageSrc", Str(""))], PreviewProps(c)))
    else if t == "TextPressure" then Widget(t, c.props)
    else if t == "PermawebProfile" || t == "PermawebAtomicAsset" then WidgetFor(t, c)
    else Widget(t, PreviewProps(c))
  }

  /** Every ordinary known type is drawn with the overlaid preview props. */
  lemma RenderShowsPreview(c: C.Component)
    requires c.componentType in RenderedTypes
    requires c.componentType !in ["GridDistortion", "TextPressure", "PermawebProfile", "PermawebAtomicAsset"]
    ensures Render(c) == Widget(c.componentType, PreviewProps(c))
  {
  }

  /** GridDistortion's image source is empty unless the props supply one. */
  lemma GridDistortionImage(c: C.Component)
    requires c.componentType == "GridDistortion" && Assoc.UniqueKeys(c.props)
    ensures Render(c).Widget?
    ensures Assoc.Get(Render(c).props, "imageSrc") ==
      if "imageSrc" in Assoc.Keys(c.props) then Assoc.Get(c.props, "imageSrc") else Some(Str(""))
  {
    assert DefaultProps(c.componentType) == Some([]);
    assert PreviewProps(c) == Assoc.Merge([], c.props);
    Assoc.SpreadIntoEmpty(c.props);
    assert Render(c) == Widget(c.componentType, Assoc.Merge([("imageSrc", Str(""))], c.props));
    Assoc.MergeGet([("imageSrc", Str(""))], c.props, "imageSrc");
  }

  // ---------------------------------------------------------------- renderProperties

  /** The types `renderProperties` has a case for. */
  const PanelTypes: seq<string> := [
    "wallet", "Header", "ardacity-navbar", "ardacity-header-one", "ardacity-header-three",
    "arweave-form", "message-signer", "nft", "credentials-navbar", "DecryptedText",
    "FlowingMenu", "TextPressure", "PermawebProfile", "PermawebAtomicAsset", "leaderboard"]

  /** The member is present and truthy. */
  predicate TruthyProp(props: Props, key: string)
  {
    Assoc.Get(props, key).Some? && Truthy(Assoc.Get(props, key).value)
  }

  /**
   * `renderProperties()`, reduced to the keys its inputs edit (each handed
   * to `onPropertyChange`); `None` where it renders nothing.
   */
  function PanelFields(c: C.Component): (r: Option<seq<string>>)
    ensures r.None? <==> c.componentType !in PanelTypes
                         || (c.componentType == "Header" && !TruthyProp(c.props, "ctaButton"))
    ensures c.componentType == "wallet" ==>
              r.Some? && ("addressDisplayLength" in r.value <==> TruthyProp(c.props, "showAddress"))
  {
    match c.componentType
    case "wallet" =>
      Some(["variant", "size", "showAddress"]
           + (if TruthyProp(c.props, "showAddress") then ["addressDisplayLength"] else [])
           + ["aoProcessId", "lastMessages", "inbox"])
    case "Header" => if TruthyProp(c.props, "ctaButton") then Some(["ctaButton.buttonType"]) else None
    case "ardacity-navbar" => Some(["brand", "variant", "position"])
    case "ardacity-header-one" => Some(["name", "title", "images"])
    case "ardacity-header-three" => Some(["imageSrc", "title", "grid", "mouse", "strength", "relaxation"])
    case "arweave-form" => Some(["title", "description", "initialLuaCode"])
    case "message-signer" => Some(["title", "description", "initialLuaCode"])
    case "nft" => Some(["title", "description", "imageUrl", "tokenId", "owner", "initialLuaCode"])
    case "credentials-navbar" =>
      Some(["activeTab", "socialLinks.instagram", "socialLinks.twitter", "socialLinks.facebook",
            "socialLinks.linkedin", "socialLinks.github", "socialLinks.discord", "socialLinks.telegram"])
    case "DecryptedText" =>
      Some(["text", "speed", "maxIterations", "sequential", "revealDirection", "useOriginalCharsOnly",
            "characters", "className", "parentClassName", "encryptedClassName", "animateOn"])
    case "FlowingMenu" => Some(["items", "className"])
    case "TextPressure" =>
      Some(["text", "textColor", "strokeColor", "minFontSize", "flex", "alpha", "stroke", "width", "weight", "italic"])
    case "PermawebProfile" => Some(["profileId", "walletAddress", "luaCode"])
    case "PermawebAtomicAsset" => Some(["assetId", "assetIds", "luaCode"])
    case "leaderboard" => Some(["processId", "title", "limit"])
    case _ => None
  }

  /** Editing a social link on a credentials navbar without links creates the `socialLinks` object. */
  lemma SocialLinkCreatesObject(props: Props, link: string, url: string)
    requires Assoc.Get(props, "socialLinks").None? && '.' !in link
    ensures PP.SetPath(props, S.Split("socialLinks." + link, '.'), Str(url))
         == Some(Assoc.Put(props, "socialLinks", Obj([(link, Str(url))])))
  {
    S.SplitPair("socialLinks", link, '.');
    assert "socialLinks" + ['.'] + link == "socialLinks." + link;
    PP.SetPathCreatesIntermediate(props, "socialLinks", link, Str(url));
  }

  // ---------------------------------------------------------------- getFullComponentCode

  /** `String(v)` for the values that are neither strings nor objects. */
  function ScalarText(v: Json): string
  {
    match v
    case Num(n) => S.IntToString(n)
    case Bool(b) => if b then "true" else "false"
    case _ => ""
  }

  /** The JSX attribute line for one prop. */
  function PropLine(key: string, v: Json, stringify: Json -> string): (line: string)
    ensures |line| >= |key| + 3 && line[..|key| + 3] == "  " + key + "="
    ensures TypeOf(v) == "string" ==> line[|key| + 3..] == "\"" + v.s + "\""
    ensures TypeOf(v) == "object" ==> line[|key| + 3..] == "{" + stringify(v) + "}"
    ensures TypeOf(v) != "string" && TypeOf(v) != "object" ==> line[|key| + 3..] == "{" + ScalarText(v) + "}"
  {
    var head := "  " + key + "=";
    var tail := if TypeOf(v) == "string" then "\"" + v.s + "\""
                else if TypeOf(v) == "object" then "{" + stringify(v) + "}"
                else "{" + ScalarText(v) + "}";
    assert (head + tail)[..|head|] == head && (head + tail)[|head|..] == tail;
    head + tail
  }

  /** One line per prop, in insertion order. */
  function PropLines(props: Props, stringify: Json -> string): (lines: seq<string>)
    ensures |lines| == |props|
    ensures forall i :: 0 <= i < |props| ==> lines[i] == PropLine(props[i].0, props[i].1, stringify)
  {
    seq(|props|, i requires 0 <= i < |props| => PropLine(props[i].0, props[i].1, stringify))
  }

  function CodeHead(t: string): string
  {
    "import " + t + " from './components/" + t + "';\n\nconst MyComponent = () => {\n  return (\n    <" + t + "\n"
  }

  const CodeTail: string := "\n    />\n  );\n};\n\nexport default MyComponent;"

  /** `propsString`: the prop lines joined with newlines. */
  function PropBlock(props: Props, stringify: Json -> string): string
  {
    S.Join(PropLines(props, stringify), '\n')
  }

  /**
   * `getFullComponentCode(component)`: the prop block inside a fixed
   * import-and-JSX template named after the type.
   */
  function FullComponentCode(c: C.Component, stringify: Json -> string): (code: string)
    ensures |code| >= |CodeHead(c.componentType)| + |CodeTail|
    ensures code[..|CodeHead(c.componentType)|] == CodeHead(c.componentType)
    ensures code[|code| - |CodeTail|..] == CodeTail
    ensures code[|CodeHead(c.componentType)|..|code| - |CodeTail|] == PropBlock(c.props, stringify)
  {
    var head, block := CodeHead(c.componentType), PropBlock(c.props, stringify);
    assert (head + block + CodeTail)[..|head|] == head;
    assert (head + block + CodeTail)[|head| + |block|..] == CodeTail;
    assert (head + block + CodeTail)[|head|..|head| + |block|] == block;
    head + block + CodeTail
  }

  /**
   * The prop block can be read back line by line: when no rendered line holds
   * a newline, splitting it on newlines yields exactly one line per prop, in
   * order, each starting with its key.
   */
  lemma CodeLinesRecoverProps(c: C.Component, stringify: Json -> string)
    requires |c.props| >= 1
    requires forall i :: 0 <= i < |c.props| ==> '\n' !in PropLine(c.props[i].0, c.props[i].1, stringify)
    ensures var lines := S.Split(PropBlock(c.props, stringify), '\n');
      |lines| == |c.props|
      && forall i :: 0 <= i < |lines| ==> |lines[i]| >= |c.props[i].0| + 3
                                          && lines[i][..|c.props[i].0| + 3] == "  " + c.props[i].0 + "="
  {
    S.SplitJoin(PropLines(c.props, stringify), '\n');
  }

  /** A component without props still yields the template, with an empty prop block. */
  lemma CodeWithoutProps(c: C.Component, stringify: Json -> string)
    requires c.props == []
    ensures FullComponentCode(c, stringify) == CodeHead(c.componentType) + CodeTail
  {
    assert PropLines(c.props, stringify) == [];
  }

  // ---------------------------------------------------------------- FlowingMenu items

  /** The item the "Add Menu Item" button appends. */
  const NewMenuItem: Json := Obj([("link", Str("#")), ("text", Str("New Item")), ("image", Str(MenuImageUrl))])

  /**
   * `[...(component.props.items || [])]`. `None` for any other truthy value:
   * the panel renders the items with `(component.props.items || []).map`,
   * which throws for a value that is not an array, so no edit is reached.
   */
  function MenuItems(props: Props): (r: Option<seq<Json>>)
    ensures !TruthyProp(props, "items") ==> r == Some([])
    ensures r.None? <==> TruthyProp(props, "items") && !Assoc.Get(props, "items").value.Arr?
    ensures Assoc.Get(props, "items").Some? && Assoc.Get(props, "items").value.Arr? ==>
              r == Some(Assoc.Get(props, "items").value.items)
  {
    match Assoc.Get(props, "items")
    case None => Some([])
    case Some(v) => if !Truthy(v) then Some([]) else if v.Arr? then Some(v.items) else None
  }

  /** `{...v}` for an item: an object's own entries; other values contribute none. */
  function Entries(v: Json): Props
  {
    if v.Obj? then v.entries else []
  }

  /** `newItems[index] = {...newItems[index], [field]: value}`: a copy of the item with that field assigned. */
  function EditMenuItem(items: seq<Json>, index: nat, field: string, value: string): (r: seq<Json>)
    requires index < |items|
    ensures |r| == |items| && forall j :: 0 <= j < |items| && j != index ==> r[j] == items[j]
    ensures r[index].Obj? && Assoc.Get(r[index].entries, field) == Some(Str(value))
    ensures forall f :: f != field ==> Assoc.Get(r[index].entries, f) == Assoc.Get(Entries(items[index]), f)
  {
    items[index := Obj(Assoc.Put(Entries(items[index]), field, Str(value)))]
  }

  /** `newItems.splice(index, 1)`. */
  function RemoveMenuItem(items: seq<Json>, index: nat): (r: seq<Json>)
    requires index < |items|
    ensures |r| == |items| - 1
    ensures forall j :: 0 <= j < index ==> r[j] == items[j]
    ensures forall j :: index <= j < |r| ==> r[j] == items[j + 1]
  {
    items[..index] + items[index + 1..]
  }

  /** `newItems.push(newItem)`. */
  function AddMenuItem(items: seq<Json>): (r: seq<Json>)
    ensures |r| == |items| + 1 && r[..|items|] == items && r[|items|] == NewMenuItem
  {
    items + [NewMenuItem]
  }

  /** Removing the item just added gives the list back. */
  lemma RemoveUndoesAddMenuItem(items: seq<Json>)
    ensures RemoveMenuItem(AddMenuItem(items), |items|) == items
  {
  }

  /** Setting a field to the value it already holds on an object item changes nothing. */
  lemma EditMenuItemSameValue(items: seq<Json>, index: nat, field: string, value: string)
    requires index < |items| && items[index].Obj?
    requires Assoc.Get(items[index].entries, field) == Some(Str(value))
    requires Assoc.UniqueKeys(items[index].entries)
    ensures EditMenuItem(items, index, field, value) == items
  {
    PutExisting(items[index].entries, field, Str(value));
  }

  /** Assigning a key the value it already has leaves a unique-keyed object as it is. */
  lemma {:induction false} PutExisting(m: Props, k: string, v: Json)
    requires Assoc.UniqueKeys(m) && Assoc.Get(m, k) == Some(v)
    ensures Assoc.Put(m, k, v) == m
  {
    if m[0].0 != k {
      Assoc.TailKeys(m);
      PutExisting(m[1..], k, v);
    }
  }

  // ---------------------------------------------------------------- comma-separated lists

  /** How `Array.prototype.join` renders one element. */
  function ElementText(v: Json): string
  {
    match v
    case Str(s) => s
    case Num(n) => S.IntToString(n)
    case Bool(b) => if b then "true" else "false"
    case Null => ""
    case Arr(_) => ""
    case Obj(_) => "[object Object]"
  }

  /** `component.props[key]?.join(',') || ''`. */
  function CommaDisplay(props: Props, key: string): string
  {
    var v := Assoc.Get(props, key);
    if v.Some? && v.value.Arr? then
      var xs := v.value.items;
      S.Join(seq(|xs|, i requires 0 <= i < |xs| => ElementText(xs[i])), ',')
    else ""
  }

  /** `text.split(',').map(s => s.trim())`. */
  function CommaEdit(text: string): (r: seq<string>)
    ensures |r| == |S.Split(text, ',')| >= 1
    ensures forall i :: 0 <= i < |r| ==> S.Trimmed(r[i]) && ',' !in r[i]
  {
    var parts := S.Split(text, ',');
    assert forall i :: 0 <= i < |parts| ==> S.Trimmed(S.Trim(parts[i])) by {
      forall i | 0 <= i < |parts| ensures S.Trimmed(S.Trim(parts[i])) {
        S.TrimProperties(parts[i]);
      }
    }
    seq(|parts|, i requires 0 <= i < |parts| => S.Trim(parts[i]))
  }

  /** An empty field edits to a list holding one empty string. */
  lemma CommaEditEmpty()
    ensures CommaEdit("") == [""]
  {
    S.TrimProperties("");
  }

  /**
   * Display then edit is the identity on non-empty lists whose elements hold
   * no comma and no surrounding white space.
   */
  lemma CommaRoundTrip(xs: seq<string>)
    requires |xs| >= 1
    requires forall i :: 0 <= i < |xs| ==> ',' !in xs[i] && S.Trimmed(xs[i])
    ensures CommaEdit(CommaDisplay([("list", Arr(seq(|xs|, i requires 0 <= i < |xs| => Str(xs[i]))))], "list")) == xs
  {
    var arr := seq(|xs|, i requires 0 <= i < |xs| => Str(xs[i]));
    assert seq(|arr|, i requires 0 <= i < |arr| => ElementText(arr[i])) == xs;
    S.SplitJoin(xs, ',');
    forall i | 0 <= i < |xs| ensures S.Trim(xs[i]) == xs[i] {
      S.TrimProperties(xs[i]);
    }
  }

  // ---------------------------------------------------------------- the page's own state

  /** The page's state: the store's record, its own selected id and the component being dragged. */
  datatype Page = Page(builder: C.BuilderState, selectedId: Option<string>, dragged: Option<C.Component>)

  /**
   * `handleDrop(payload, zoneId)`: a non-empty payload is decoded and placed;
   * the dragged component is cleared. A payload that does not decode throws
   * before anything changes.
   */
  function Drop(p: Page, payload: string, zoneId: string, decode: string -> Option<C.Component>,
                timestamp: nat, random36: string): (r: Page)
    ensures payload == "" ==> r == p.(dragged := None)
    ensures payload != "" && decode(payload).None? ==> r == p
    ensures payload != "" && decode(payload).Some? ==>
              r == p.(builder := C.AddComponent(p.builder, decode(payload).value, zoneId, timestamp, random36),
                       dragged := None)
  {
    if payload == "" then p.(dragged := None)
    else match decode(payload)
      case None => p
      case Some(c) => p.(builder := C.AddComponent(p.builder, c, zoneId, timestamp, random36), dragged := None)
  }

  /** The canvas `onDrop`: a drop into the root zone, then the selection is cleared. */
  function CanvasDrop(p: Page, payload: string, decode: string -> Option<C.Component>,
                      timestamp: nat, random36: string): Page
  {
    if payload != "" && decode(payload).None? then p
    else Drop(p, payload, C.RootZoneId, decode, timestamp, random36).(selectedId := None)
  }

  /** `handleRemoveComponent(id)`: the store removes it; the page's selection is cleared only if it is that id. */
  function RemoveComponent(p: Page, id: string): (r: Page)
    ensures (r.selectedId == None) <==> (p.selectedId == None || p.selectedId == Some(id))
    ensures r.selectedId != None ==> r.selectedId == p.selectedId
  {
    Page(C.RemoveComponent(p.builder, id), if p.selectedId == Some(id) then None else p.selectedId, p.dragged)
  }

  /** `handleShowCode(id)`: selects that id. */
  function ShowCode(p: Page, id: string): Page
  {
    p.(selectedId := Some(id))
  }

  /** The properties panel's `onPropertyChange`: only with a (truthy) selected id. */
  function PanelPropertyChange(p: Page, key: string, value: Json): Page
  {
    if p.selectedId.Some? && p.selectedId.value != ""
    then p.(builder := PropertyChange(p.builder, p.selectedId.value, key, value))
    else p
  }

  /** A canvas card's `onPropertyChange`: only for a component with a (truthy) id. */
  function CardPropertyChange(p: Page, component: C.Component, key: string, value: Json): Page
  {
    if component.id != "" then p.(builder := PropertyChange(p.builder, component.id, key, value)) else p
  }

  /** After removing the selected instance, nothing is selected, neither in the panel nor by lookup. */
  lemma RemoveSelectedClearsSelection(p: Page, id: string)
    requires p.selectedId == Some(id)
    ensures RemoveComponent(p, id).selectedId == None
    ensures GetSelectedComponent(RemoveComponent(p, id).builder, RemoveComponent(p, id).selectedId) == None
  {
  }

  /** Whatever is removed, the lookup never returns an instance with that id afterwards. */
  lemma RemovedIdNeverSelected(p: Page, id: string, sel: Option<string>)
    ensures var r := GetSelectedComponent(RemoveComponent(p, id).builder, sel);
      r.Some? ==> r.value.id != id
  {
    C.RemoveLeavesNoTrace(p.builder, id);
  }

  /** A drop with an empty payload places nothing. */
  lemma EmptyDropAddsNothing(p: Page, zoneId: string, decode: string -> Option<C.Component>, ts: nat, r36: string)
    ensures Drop(p, "", zoneId, decode, ts, r36).builder == p.builder
    ensures CanvasDrop(p, "", decode, ts, r36).builder == p.builder
    ensures CanvasDrop(p, "", decode, ts, r36).selectedId == None
  {
  }

  /** A canvas drop of a decodable payload lands at the end of the root zone and clears the selection. */
  lemma CanvasDropTargetsRoot(p: Page, payload: string, decode: string -> Option<C.Component>, ts: nat, r36: string)
    requires C.Valid(p.builder) && payload != "" && decode(payload).Some?
    ensures var r := CanvasDrop(p, payload, decode, ts, r36);
      r.selectedId == None && r.dragged == None
      && C.RootChildren(r.builder) == C.RootChildren(p.builder) + [C.Placed(decode(payload).value, ts, r36)]
  {
    C.ValidRoot(p.builder);
    var r := CanvasDrop(p, payload, decode, ts, r36);
    C.ValidRoot(r.builder);
  }

  /** Without a selection the panel's edits do nothing. */
  lemma PanelNeedsSelection(p: Page, key: string, value: Json)
    requires p.selectedId.None? || p.selectedId == Some("")
    ensures PanelPropertyChange(p, key, value) == p
  {
  }

  /** Showing the code of an instance makes it the one the panel looks up. */
  lemma ShowCodeSelects(p: Page, id: string)
    requires id != ""
    ensures GetSelectedComponent(ShowCode(p, id).builder, ShowCode(p, id).selectedId)
         == FindById(C.AllChildren(p.builder.dropZones), id)
  {
  }

  /** The builder page as an object: the store it uses and its own two fields. */
  class Builder {
    const store: UseBuilder.Store
    var selectedComponentId: Option<string>
    var draggedComponent: Option<C.Component>

    /** The whole page state as one record. */
    function Snapshot(): Page
      reads this, store
    {
      Page(store.state, selectedComponentId, draggedComponent)
    }

    constructor()
      ensures fresh(store) && Snapshot() == Page(C.Initial(), None, None)
    {
      store := new UseBuilder.Store();
      selectedComponentId := None;
      draggedComponent := None;
    }

    /** `handleDragStart`: remembers the component, whose serialisation becomes the drag payload. */
    method HandleDragStart(component: C.Component, stringify: C.Component -> string) returns (payload: string)
      modifies this
      ensures payload == stringify(component)
      ensures Snapshot() == old(Snapshot()).(dragged := Some(component))
    {
      payload := stringify(component);
      draggedComponent := Some(component);
    }

    method HandleDrop(payload: string, zoneId: string, decode: string -> Option<C.Component>,
                      timestamp: nat, random36: string)
      modifies this, store
      ensures Snapshot() == Drop(old(Snapshot()), payload, zoneId, decode, timestamp, random36)
    {
      if payload != "" {
        var c := decode(payload);
        if c.None? {
          return;
        }
        store.AddComponent(c.value, zoneId, timestamp, random36);
      }
      draggedComponent := None;
    }

    method HandleCanvasDrop(payload: string, decode: string -> Option<C.Component>, timestamp: nat, random36: string)
      modifies this, store
      ensures Snapshot() == CanvasDrop(old(Snapshot()), payload, decode, timestamp, random36)
    {
      if payload != "" && decode(payload).None? {
        return;
      }
      HandleDrop(payload, C.RootZoneId, decode, timestamp, random36);
      selectedComponentId := None;
    }

    method HandleMoveUp(id: string)
      modifies store
      ensures Snapshot() == old(Snapshot()).(builder := C.MoveComponent(old(store.state), id, C.Up))
    {
      store.MoveComponent(id, C.Up);
    }

    method HandleMoveDown(id: string)
      modifies store
      ensures Snapshot() == old(Snapshot()).(builder := C.MoveComponent(old(store.state), id, C.Down))
    {
      store.MoveComponent(id, C.Down);
    }

    method HandleRemoveComponent(id: string)
      modifies this, store
      ensures Snapshot() == RemoveComponent(old(Snapshot()), id)
    {
      store.RemoveComponent(id);
      if selectedComponentId == Some(id) {
        selectedComponentId := None;
      }
    }

    method HandleShowCode(id: string)
      modifies this
      ensures Snapshot() == ShowCode(old(Snapshot()), id)
    {
      selectedComponentId := Some(id);
    }

    /** `handlePropertyChange(id, key, value)`, walking the path with the source's loop. */
    method HandlePropertyChange(id: string, key: string, value: Json)
      modifies store
      ensures Snapshot() == old(Snapshot()).(builder := PropertyChange(old(store.state), id, key, value))
    {
      var found := FindById(C.AllChildren(store.state.dropZones), id);
      if found.None? {
        return;
      }
      var updated := PP.SetPropertyPath(found.value.props, S.Split(key, '.'), value);
      if updated.None? {
        return;
      }
      store.UpdateComponent(id, updated.value);
    }

    method HandlePanelPropertyChange(key: string, value: Json)
      modifies store
      ensures Snapshot() == PanelPropertyChange(old(Snapshot()), key, value)
    {
      if selectedComponentId.Some? && selectedComponentId.value != "" {
        HandlePropertyChange(selectedComponentId.value, key, value);
      }
    }

    method HandleCardPropertyChange(component: C.Component, key: string, value: Json)
      modifies store
      ensures Snapshot() == CardPropertyChange(old(Snapshot()), component, key, value)
    {
      if component.id != "" {
        HandlePropertyChange(component.id, key, value);
      }
    }

    /** `getSelectedComponent()` on the current state. */
    method SelectedComponent() returns (r: Option<C.Component>)
      ensures r == GetSelectedComponent(store.state, selectedComponentId)
    {
      r := GetSelectedComponent(store.state, selectedComponentId);
    }
  }
}
