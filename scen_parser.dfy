/**
 * The scenario controller of lib/xml/scen_parser.py: the parse state it keeps,
 * the element lookups the clients use, the list of prompt items and the prompt
 * template with its input variables.
 */
module ScenParser {
  import opened Wrappers
  import opened ElementTree
  import Placeholders

  /** What reading the scenario file produced; the file I/O and the XML parser themselves are not modelled. */
  datatype LoadOutcome =
    | PathMissing            // the path does not exist
    | OpenFailed             // `open` raised OSError
    | ParseFailed            // the XML parser raised
    | Parsed(tree: Element)  // the root element of the parsed document

  /** A `{name, value}` dictionary of `map_prompt_items`. */
  datatype PromptItem = PromptItem(name: Option<string>, value: Option<string>)

  /** The `{input_variables, template}` dictionary of `build_prompt`. */
  datatype PromptDict = PromptDict(inputVariables: seq<string>, template: string)

  class ScenarioController {
    var isParsed: bool
    var root: Option<Element>   // None while the attribute was never assigned
    var botCount: nat

    /** The root is set whenever the scenario counts as parsed. */
    ghost predicate Valid()
      reads this
    {
      isParsed ==> root.Some?
    }

    constructor ()
      ensures Valid() && !isParsed && root.None? && botCount == 0
    {
      isParsed, root, botCount := false, None, 0;
    }

    /**
     * `parse_scenario` once the file has been read. An OSError from `open` leads the
     * handler to close a file variable that was never bound; a parser error leads
     * Python to evaluate `except DefusedXmlException`, a name that is not imported.
     */
    method ParseScenario(outcome: LoadOutcome) returns (r: Result<bool>)
      requires Valid()
      modifies this
      ensures Valid() && botCount == old(botCount)
      ensures outcome.Parsed? ==> r == Ok(true) && isParsed && root == Some(outcome.tree)
      ensures !outcome.Parsed? ==> isParsed == old(isParsed) && root == old(root)
      ensures outcome.PathMissing? ==> r == Ok(false)
      ensures outcome.OpenFailed? ==> r == Err(UnboundLocalError("scenario"))
      ensures outcome.ParseFailed? ==> r == Err(NameError("DefusedXmlException"))
    {
      match outcome
      case PathMissing =>
        r := Ok(false);
      case OpenFailed =>
        r := Err(UnboundLocalError("scenario"));
      case ParseFailed =>
        r := Err(NameError("DefusedXmlException"));
      case Parsed(tree) =>
        isParsed := true;
        root := Some(tree);
        r := Ok(true);
    }

    /** The launcher's `sp.bot_count = len(sp.get_bots())` after a successful parse. */
    method CountBots()
      requires Valid() && isParsed
      modifies this`botCount
      ensures botCount == |FindAll(root.value, "bot")|
    {
      botCount := |FindAll(root.value, "bot")|;
    }

    /** `get_name`: the text of the root's first `name` child. */
    function GetName(): (r: Result<Option<string>>)
      reads this
      ensures root.None? ==> r == Err(AttributeError)
      ensures root.Some? ==> IsFirstChildText(root.value, "name", r)
    {
      match root
      case None => Err(AttributeError)
      case Some(e) => ChildText(e, "name")
    }

    /** `get_channel`: the text of the root's first `channel` child. */
    function GetChannel(): (r: Result<Option<string>>)
      reads this
      ensures root.None? ==> r == Err(AttributeError)
      ensures root.Some? ==> IsFirstChildText(root.value, "channel", r)
    {
      match root
      case None => Err(AttributeError)
      case Some(e) => ChildText(e, "channel")
    }

    /** `get_bots`: every `bot` child of the root, in document order. */
    function GetBots(): (r: Result<seq<Element>>)
      reads this
      ensures r.Ok? <==> root.Some?
      ensures r.Err? ==> r.error == AttributeError
      ensures r.Ok? ==> forall b :: b in r.value <==> b in root.value.children && b.tag == "bot"
      ensures r.Ok? ==> r.value == FindAll(root.value, "bot")
    {
      match root
      case None => Err(AttributeError)
      case Some(e) => FilterTagMembers(e.children, "bot"); Ok(FindAll(e, "bot"))
    }

    /** `get_all_bot_names`: appends each bot's name text in document order. */
    method GetAllBotNames() returns (r: Result<seq<Option<string>>>)
      ensures root.None? ==> r == Err(AttributeError)
      ensures root.Some? ==> r == BotNames(FindAll(root.value, "bot"))
    {
      var bots := GetBots();
      if bots.Err? {
        return Err(bots.error);
      }
      var bs := bots.value;
      assert bs == FindAll(root.value, "bot");
      var names: seq<Option<string>> := [];
      for i := 0 to |bs|
        invariant BotNames(bs[..i]) == Ok(names)
      {
        var name := GetBotName(bs[i]);
        if name.Err? {
          BotNamesFail(bs, i);
          return Err(name.error);
        }
        BotNamesStep(bs, i, names);
        names := names + [name.value];
      }
      assert bs[..|bs|] == bs;
      r := Ok(names);
    }
  }

  /** The names of `bots` as `get_all_bot_names` lists them; AttributeError at the first bot without one. */
  function BotNames(bots: seq<Element>): Result<seq<Option<string>>>
  {
    if bots == [] then Ok([])
    else match BotNames(bots[..|bots| - 1])
      case Err(e) => Err(e)
      case Ok(ns) =>
        match GetBotName(bots[|bots| - 1])
        case Err(e) => Err(e)
        case Ok(n) => Ok(ns + [n])
  }

  /** AttributeError exactly when some bot has no `name`. */
  lemma {:induction false} BotNamesOk(bots: seq<Element>)
    ensures BotNames(bots).Ok? <==> forall i :: 0 <= i < |bots| ==> GetBotName(bots[i]).Ok?
    ensures BotNames(bots).Err? ==> BotNames(bots).error == AttributeError
    decreases |bots|
  {
    if bots != [] {
      var n := |bots| - 1;
      var init := bots[..n];
      BotNamesOk(init);
      if BotNames(init).Err? {
        var i :| 0 <= i < n && !GetBotName(init[i]).Ok?;
        assert init[i] == bots[i];
      } else {
        forall i | 0 <= i < n
          ensures GetBotName(bots[i]).Ok?
        {
          assert init[i] == bots[i];
        }
      }
    }
  }

  /** When every bot has a name: one name per bot, in order. */
  lemma {:induction false} BotNamesValues(bots: seq<Element>)
    requires forall i :: 0 <= i < |bots| ==> GetBotName(bots[i]).Ok?
    ensures BotNames(bots).Ok? && |BotNames(bots).value| == |bots|
    ensures forall i :: 0 <= i < |bots| ==> BotNames(bots).value[i] == GetBotName(bots[i]).value
    decreases |bots|
  {
    if bots != [] {
      var n := |bots| - 1;
      var init := bots[..n];
      forall i | 0 <= i < n
        ensures GetBotName(init[i]).Ok?
      {
        assert init[i] == bots[i];
      }
      BotNamesValues(init);
      BotNamesSnoc(bots);
    }
  }

  /** Appending a bot to a list whose names are known. */
  lemma BotNamesSnoc(bots: seq<Element>)
    requires bots != [] && forall i :: 0 <= i < |bots| ==> GetBotName(bots[i]).Ok?
    requires BotNames(bots[..|bots| - 1]).Ok? && |BotNames(bots[..|bots| - 1]).value| == |bots| - 1
    requires forall i :: 0 <= i < |bots| - 1 ==> BotNames(bots[..|bots| - 1]).value[i] == GetBotName(bots[i]).value
    ensures BotNames(bots).Ok? && |BotNames(bots).value| == |bots|
    ensures forall i :: 0 <= i < |bots| ==> BotNames(bots).value[i] == GetBotName(bots[i]).value
  {
    var n := |bots| - 1;
    var r := BotNames(bots[..n]).value + [GetBotName(bots[n]).value];
    assert BotNames(bots) == Ok(r);
  }

  /** The loop step of `get_all_bot_names`: a named bot extends the list by its name. */
  lemma BotNamesStep(bots: seq<Element>, i: nat, names: seq<Option<string>>)
    requires i < |bots| && BotNames(bots[..i]) == Ok(names) && GetBotName(bots[i]).Ok?
    ensures BotNames(bots[..i + 1]) == Ok(names + [GetBotName(bots[i]).value])
  {
    assert bots[..i + 1][..i] == bots[..i];
  }

  /** A bot without a name makes `BotNames` fail. */
  lemma BotNamesFail(bots: seq<Element>, i: nat)
    requires i < |bots| && GetBotName(bots[i]).Err?
    ensures BotNames(bots) == Err(AttributeError)
  {
    BotNamesOk(bots);
  }

  /** `get_bot_name` */
  function GetBotName(bot: Element): (r: Result<Option<string>>)
    ensures IsFirstChildText(bot, "name", r)
  {
    ChildText(bot, "name")
  }

  /** `get_bot_prompt` */
  function GetBotPrompt(bot: Element): (r: Result<Option<string>>)
    ensures IsFirstChildText(bot, "prompt", r)
  {
    ChildText(bot, "prompt")
  }

  /** `get_bot_expression` */
  function GetBotExpression(bot: Element): (r: Result<Option<string>>)
    ensures IsFirstChildText(bot, "expression", r)
  {
    ChildText(bot, "expression")
  }

  /** `get_bot_contacts` */
  function GetBotContacts(bot: Element): (r: Result<Option<string>>)
    ensures IsFirstChildText(bot, "contacts", r)
  {
    ChildText(bot, "contacts")
  }

  /** `get_bot_task` */
  function GetBotTask(bot: Element): (r: Result<Option<string>>)
    ensures IsFirstChildText(bot, "task", r)
  {
    ChildText(bot, "task")
  }

  /** `get_bot_protected`: the first `protects` child itself, not its text. */
  function GetBotProtected(bot: Element): (r: Option<Element>)
    ensures r.None? <==> FindAll(bot, "protects") == []
    ensures r.Some? ==> r.value == FindAll(bot, "protects")[0]
  {
    FindIsFirstOfFindAll(bot, "protects");
    Find(bot, "protects")
  }

  /** `get_prompt_items`: the `item` children of the bot's first `prompt_items`. */
  function GetPromptItems(bot: Element): (r: Result<seq<Element>>)
    ensures r.Ok? <==> FindAll(bot, "prompt_items") != []
    ensures r.Ok? ==> r.value == FindAll(FindAll(bot, "prompt_items")[0], "item")
    ensures r.Err? ==> r.error == AttributeError
  {
    FindIsFirstOfFindAll(bot, "prompt_items");
    match Find(bot, "prompt_items")
    case None => Err(AttributeError)
    case Some(p) => Ok(FindAll(p, "item"))
  }

  /** The entry `map_prompt_items` makes of one `item`: `value` is "" when there is no `value` child. */
  function ItemOf(item: Element): Result<PromptItem>
  {
    match ChildText(item, "name")
    case Err(e) => Err(e)
    case Ok(name) =>
      Ok(PromptItem(name, match Find(item, "value") case None => Some("") case Some(v) => v.text))
  }

  /** The entries made of `items`, in order; AttributeError at the first item without a name. */
  function ItemsOf(items: seq<Element>): Result<seq<PromptItem>>
  {
    if items == [] then Ok([])
    else match ItemsOf(items[..|items| - 1])
      case Err(e) => Err(e)
      case Ok(ps) =>
        match ItemOf(items[|items| - 1])
        case Err(e) => Err(e)
        case Ok(p) => Ok(ps + [p])
  }

  /** An item's entry: AttributeError without a `name` child, else the first `name` text and the first `value` text (`""` without one). */
  lemma ItemOfMeaning(item: Element)
    ensures ItemOf(item).Ok? <==> FindAll(item, "name") != []
    ensures ItemOf(item).Ok? ==> ItemOf(item).value.name == FindAll(item, "name")[0].text
    ensures ItemOf(item).Ok? && FindAll(item, "value") == [] ==> ItemOf(item).value.value == Some("")
    ensures ItemOf(item).Ok? && FindAll(item, "value") != [] ==> ItemOf(item).value.value == FindAll(item, "value")[0].text
    ensures ItemOf(item).Err? ==> ItemOf(item).error == AttributeError
  {
    FindIsFirstOfFindAll(item, "value");
  }

  /** An item with a `name` gives the entry of that name and its `value` text (`""` without a `value`). */
  lemma ItemOfParts(item: Element)
    ensures ChildText(item, "name").Ok? ==> (ItemOf(item) ==
      Ok(PromptItem(ChildText(item, "name").value, match Find(item, "value") case None => Some("") case Some(v) => v.text)))
    ensures ChildText(item, "name").Err? ==> ItemOf(item).Err?
  {
  }

  /** AttributeError exactly when some item has no `name`. */
  lemma {:induction false} ItemsOfOk(items: seq<Element>)
    ensures ItemsOf(items).Ok? <==> forall i :: 0 <= i < |items| ==> ItemOf(items[i]).Ok?
    ensures ItemsOf(items).Err? ==> ItemsOf(items).error == AttributeError
    decreases |items|
  {
    if items != [] {
      var n := |items| - 1;
      var init := items[..n];
      ItemsOfOk(init);
      if ItemsOf(init).Err? {
        var i :| 0 <= i < n && !ItemOf(init[i]).Ok?;
        assert init[i] == items[i];
      } else {
        forall i | 0 <= i < n
          ensures ItemOf(items[i]).Ok?
        {
          assert init[i] == items[i];
        }
      }
    }
  }

  /** When every item has a name: one entry per item, in order. */
  lemma {:induction false} ItemsOfValues(items: seq<Element>)
    requires forall i :: 0 <= i < |items| ==> ItemOf(items[i]).Ok?
    ensures ItemsOf(items).Ok? && |ItemsOf(items).value| == |items|
    ensures forall i :: 0 <= i < |items| ==> ItemsOf(items).value[i] == ItemOf(items[i]).value
    decreases |items|
  {
    if items != [] {
      var n := |items| - 1;
      var init := items[..n];
      forall i | 0 <= i < n
        ensures ItemOf(init[i]).Ok?
      {
        assert init[i] == items[i];
      }
      ItemsOfValues(init);
      ItemsOfSnoc(items);
    }
  }

  /** Appending an item to a list whose entries are known. */
  lemma ItemsOfSnoc(items: seq<Element>)
    requires items != [] && forall i :: 0 <= i < |items| ==> ItemOf(items[i]).Ok?
    requires ItemsOf(items[..|items| - 1]).Ok? && |ItemsOf(items[..|items| - 1]).value| == |items| - 1
    requires forall i :: 0 <= i < |items| - 1 ==> ItemsOf(items[..|items| - 1]).value[i] == ItemOf(items[i]).value
    ensures ItemsOf(items).Ok? && |ItemsOf(items).value| == |items|
    ensures forall i :: 0 <= i < |items| ==> ItemsOf(items).value[i] == ItemOf(items[i]).value
  {
    var n := |items| - 1;
    var r := ItemsOf(items[..n]).value + [ItemOf(items[n]).value];
    assert ItemsOf(items) == Ok(r);
  }

  /** The loop step of `map_prompt_items`: a named item extends the list by its entry. */
  lemma ItemsOfStep(items: seq<Element>, i: nat, ps: seq<PromptItem>)
    requires i < |items| && ItemsOf(items[..i]) == Ok(ps) && ItemOf(items[i]).Ok?
    ensures ItemsOf(items[..i + 1]) == Ok(ps + [ItemOf(items[i]).value])
  {
    assert items[..i + 1][..i] == items[..i];
  }

  /** An item without a name makes `ItemsOf` fail. */
  lemma ItemsOfFail(items: seq<Element>, i: nat)
    requires i < |items| && ItemOf(items[i]).Err?
    ensures ItemsOf(items) == Err(AttributeError)
  {
    ItemsOfOk(items);
  }

  /** What `map_prompt_items` returns: AttributeError without a `prompt_items` child, else one entry per `item`. */
  function PromptItemsOf(bot: Element): (r: Result<seq<PromptItem>>)
    ensures GetPromptItems(bot).Err? ==> r == Err(AttributeError)
    ensures GetPromptItems(bot).Ok? ==> r == ItemsOf(GetPromptItems(bot).value)
    ensures r.Err? ==> r.error == AttributeError
  {
    match GetPromptItems(bot)
    case Err(e) => Err(e)
    case Ok(items) => ItemsOfOk(items); ItemsOf(items)
  }

  /** `map_prompt_items`: looks up the items, then appends one `{name, value}` entry per `item`. */
  method MapPromptItems(bot: Element) returns (r: Result<seq<PromptItem>>)
    ensures r == PromptItemsOf(bot)
  {
    var bItems := GetPromptItems(bot);
    if bItems.Err? {
      return Err(bItems.error);
    }
    r := MapItems(bItems.value);
  }

  /** The loop of `map_prompt_items` over the `item` elements. */
  method MapItems(bItems: seq<Element>) returns (r: Result<seq<PromptItem>>)
    ensures r == ItemsOf(bItems)
  {
    var items: seq<PromptItem> := [];
    for i := 0 to |bItems|
      invariant ItemsOf(bItems[..i]) == Ok(items)
    {
      var item := bItems[i];
      var name := ChildText(item, "name");
      ItemOfParts(item);
      if name.Err? {
        ItemsOfFail(bItems, i);
        return Err(name.error);
      }
      var valueElem := Find(item, "value");
      var value := if valueElem.None? then Some("") else valueElem.value.text;
      ItemsOfStep(bItems, i, items);
      items := items + [PromptItem(name.value, value)];
    }
    assert bItems[..|bItems|] == bItems;
    r := Ok(items);
  }

  /**
   * `build_prompt`: the template is the prompt text as it is; the input variables
   * are the matches of `\{(.*)\}`, copied one by one. A prompt element without
   * text makes `findall` raise TypeError.
   */
  method BuildPrompt(bot: Element) returns (r: Result<PromptDict>)
    ensures r.Ok? <==> FindAll(bot, "prompt") != [] && FindAll(bot, "prompt")[0].text.Some?
    ensures r.Ok? ==> r.value.template == FindAll(bot, "prompt")[0].text.value
    ensures r.Ok? ==> r.value.inputVariables == Placeholders.InputVariables(r.value.template)
    ensures r.Err? && FindAll(bot, "prompt") == [] ==> r.error == AttributeError
    ensures r.Err? && FindAll(bot, "prompt") != [] ==> r.error == TypeError
  {
    var bPrompt := GetBotPrompt(bot);
    if bPrompt.Err? {
      return Err(bPrompt.error);
    }
    if bPrompt.value.None? {
      return Err(TypeError);
    }
    var prompt := bPrompt.value.value;
    var matches := Placeholders.Scan(prompt);
    var items: seq<string> := [];
    for i := 0 to |matches|
      invariant items == matches[..i]
    {
      items := items + [matches[i]];
    }
    assert matches[..|matches|] == matches;
    Placeholders.ScanIsPerLine(prompt);
    r := Ok(PromptDict(items, prompt));
  }
}
