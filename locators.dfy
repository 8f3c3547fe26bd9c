/** LocatorManager: JSON locator files mapped to Selenium locator strategies,
    with a per-file cache. A file on disk is given as its parsed JSON tree. */
module Locators {
  import opened Common
  import opened JavaText
  import opened JsonUtils

  /** The eight Selenium `By` strategies. */
  datatype Strategy = Id | CssSelector | XPath | Name | ClassName | LinkText | PartialLinkText | TagName

  /** A Selenium `By`: a strategy and the locator value it is given. */
  datatype By = By(strategy: Strategy, value: string)

  /** LocatorInfo: the type is stored lower-cased. */
  datatype LocatorInfo = LocatorInfo(locatorType: string, value: string, description: string)

  type Table = map<string, LocatorInfo>

  datatype LocatorError =
    | UnknownLocatorType(locatorType: string)    // IllegalArgumentException from toBy
    | FileNotFound(path: string)                 // RuntimeException, file missing
    | LoadFailed(path: string)                   // RuntimeException wrapping an IOException
    | MalformedEntry                             // NullPointerException: no type or value field
    | LocatorNotFound(element: string, file: string)

  /** What lies at a path on disk: a JSON tree, or a file the parser rejects. */
  datatype LocatorFile = Parsed(root: Json) | Unreadable

  const LocatorsPath: string := "src/main/resources/locators/"

  /** The LocatorInfo constructor. */
  function NewLocatorInfo(locatorType: string, value: string, description: string): (r: LocatorInfo)
    ensures IsLowerCase(r.locatorType)
    ensures EqualsIgnoreCase(r.locatorType, locatorType)
    ensures r.value == value && r.description == description
  {
    ToLowerIdempotent(locatorType);
    EqualsIgnoreCaseIffSameLower(ToLower(locatorType), locatorType);
    LocatorInfo(ToLower(locatorType), value, description)
  }

  /** The switch of toBy over the (already lower-case) type names. */
  function StrategyFor(locatorType: string): (r: Option<Strategy>)
    ensures r.Some? <==> locatorType in AcceptedTypes
    ensures r.Some? ==> locatorType in NamesOf(r.value)
  {
    match locatorType
    case "id" => Some(Id)
    case "css" => Some(CssSelector)
    case "cssselector" => Some(CssSelector)
    case "xpath" => Some(XPath)
    case "name" => Some(Name)
    case "classname" => Some(ClassName)
    case "class" => Some(ClassName)
    case "linktext" => Some(LinkText)
    case "partiallinktext" => Some(PartialLinkText)
    case "tagname" => Some(TagName)
    case "tag" => Some(TagName)
    case _ => None
  }

  /** The type names toBy accepts. */
  const AcceptedTypes: set<string> :=
    {"id", "css", "cssselector", "xpath", "name", "classname", "class",
     "linktext", "partiallinktext", "tagname", "tag"}

  /** The names given to each strategy, aliases included. */
  function NamesOf(s: Strategy): (r: set<string>) {
    match s
    case Id => {"id"}
    case CssSelector => {"css", "cssselector"}
    case XPath => {"xpath"}
    case Name => {"name"}
    case ClassName => {"classname", "class"}
    case LinkText => {"linktext"}
    case PartialLinkText => {"partiallinktext"}
    case TagName => {"tagname", "tag"}
  }

  /** LocatorInfo.toBy: an accepted type gives its strategy with the value
      unchanged; any other type is an error naming that type. */
  function ToBy(info: LocatorInfo): (r: Result<By, LocatorError>)
    ensures r.Ok? <==> info.locatorType in AcceptedTypes
    ensures r.Ok? ==> r.value.value == info.value && info.locatorType in NamesOf(r.value.strategy)
    ensures r.Err? ==> r.error == UnknownLocatorType(info.locatorType)
  {
    match StrategyFor(info.locatorType)
    case Some(s) => Ok(By(s, info.value))
    case None => Err(UnknownLocatorType(info.locatorType))
  }

  /** Every name of a strategy leads back to that strategy. */
  lemma NamesSelectTheirStrategy(s: Strategy, name: string, value: string, description: string)
    requires name in NamesOf(s)
    ensures ToBy(NewLocatorInfo(name, value, description)) == Ok(By(s, value))
  {
    NamesAreLowerCase(s, name);
    ToLowerOfLowerCase(name);
    StrategyForNames(s, name);
  }

  lemma NamesAreLowerCase(s: Strategy, name: string)
    requires name in NamesOf(s)
    ensures IsLowerCase(name)
  {
  }

  lemma StrategyForNames(s: Strategy, name: string)
    requires name in NamesOf(s)
    ensures StrategyFor(name) == Some(s)
  {
  }

  /** The type in a locator file may be written in any case. */
  lemma TypeIsCaseInsensitive(locatorType: string, value: string, description: string)
    ensures ToBy(NewLocatorInfo(ToUpper(locatorType), value, description))
         == ToBy(NewLocatorInfo(locatorType, value, description))
  {
    LowerOfUpper(locatorType);
  }

  /** Two type spellings that are equal ignoring case select the same strategy. */
  lemma EqualIgnoringCaseSameBy(t1: string, t2: string, value: string, description: string)
    requires EqualsIgnoreCase(t1, t2)
    ensures ToBy(NewLocatorInfo(t1, value, description)) == ToBy(NewLocatorInfo(t2, value, description))
  {
    EqualsIgnoreCaseIffSameLower(t1, t2);
  }

  // ------------------------------------------------------- reading a file

  /** One element entry: `type` and `value` are required (their absence is a
      NullPointerException), `description` defaults to the empty string. */
  function EntryInfo(node: Json): (r: Option<LocatorInfo>)
    ensures r.Some? <==> Get(node, "type").Some? && Get(node, "value").Some?
    ensures r.Some? && Get(node, "description").None? ==> r.value.description == ""
    ensures r.Some? ==> IsLowerCase(r.value.locatorType)
    ensures r.Some? ==>
      && EqualsIgnoreCase(r.value.locatorType, AsText(Get(node, "type").value))
      && r.value.value == AsText(Get(node, "value").value)
      && (Get(node, "description").Some? ==> r.value.description == AsText(Get(node, "description").value))
  {
    var t := Get(node, "type");
    var v := Get(node, "value");
    if t.None? || v.None? then None
    else
      var d := Get(node, "description");
      Some(NewLocatorInfo(AsText(t.value), AsText(v.value), if d.Some? then AsText(d.value) else ""))
  }

  /** The `locators` object of a file; a missing node, or one that is not an
      object, has no fields. */
  function LocatorFields(root: Json): (r: map<string, Json>)
    ensures Get(root, "locators").Some? && Get(root, "locators").value.JObject? ==>
      r == Get(root, "locators").value.fields
    ensures Get(root, "locators").Some? && !Get(root, "locators").value.JObject? ==> r == map[]
    ensures Get(root, "locators").None? ==> r == map[]
  {
    var node := Get(root, "locators");
    if node.Some? && node.value.JObject? then node.value.fields else map[]
  }

  /** A table is well formed when every type name in it is lower-case. */
  predicate LowerCaseTable(t: Table) {
    forall e :: e in t ==> IsLowerCase(t[e].locatorType)
  }

  /** The table a set of element entries gives: one LocatorInfo per entry, or
      an error if any entry lacks its type or value. */
  function TableFrom(fields: map<string, Json>): (r: Result<Table, LocatorError>)
    ensures r.Ok? <==> forall e :: e in fields ==> EntryInfo(fields[e]).Some?
    ensures r.Ok? ==> r.value.Keys == fields.Keys && LowerCaseTable(r.value)
    ensures r.Ok? ==> forall e :: e in fields ==> EntryInfo(fields[e]) == Some(r.value[e])
    ensures r.Err? ==> r.error == MalformedEntry
  {
    if forall e :: e in fields ==> EntryInfo(fields[e]).Some?
    then Ok(map e | e in fields :: EntryInfo(fields[e]).value)
    else Err(MalformedEntry)
  }

  /** A file without a `locators` node gives the empty table. */
  lemma NoLocatorsNodeGivesEmptyTable(root: Json)
    requires Get(root, "locators").None?
    ensures TableFrom(LocatorFields(root)) == Ok(map[])
  {
  }

  /** The `forEachRemaining` loop filling the HashMap entry by entry. */
  method BuildTable(fields: map<string, Json>) returns (r: Result<Table, LocatorError>)
    ensures r == TableFrom(fields)
  {
    var table: Table := map[];
    var remaining := fields.Keys;
    while remaining != {}
      invariant remaining <= fields.Keys
      invariant table.Keys == fields.Keys - remaining
      invariant forall e :: e in table ==> EntryInfo(fields[e]) == Some(table[e])
      decreases remaining
    {
      var e :| e in remaining;
      var info := EntryInfo(fields[e]);
      if info.None? {
        return Err(MalformedEntry);
      }
      table := table[e := info.value];
      remaining := remaining - {e};
    }
    assert table == map e | e in fields :: EntryInfo(fields[e]).value;
    return Ok(table);
  }

  /** Reading a file that is not cached: missing, unreadable, or its table. */
  function LoadFromDisk(files: map<string, LocatorFile>, fileName: string): (r: Result<Table, LocatorError>)
    ensures LocatorsPath + fileName !in files ==> r == Err(FileNotFound(LocatorsPath + fileName))
    ensures LocatorsPath + fileName in files && files[LocatorsPath + fileName].Unreadable? ==>
      r == Err(LoadFailed(LocatorsPath + fileName))
    ensures LocatorsPath + fileName in files && files[LocatorsPath + fileName].Parsed? ==>
      r == TableFrom(LocatorFields(files[LocatorsPath + fileName].root))
    ensures r.Ok? ==> LowerCaseTable(r.value)
  {
    var path := LocatorsPath + fileName;
    if path !in files then Err(FileNotFound(path))
    else match files[path]
      case Unreadable => Err(LoadFailed(path))
      case Parsed(root) => TableFrom(LocatorFields(root))
  }

  /** getLocator after the table is loaded: a missing element is an error,
      a present one goes through toBy. */
  function LocatorIn(loaded: Result<Table, LocatorError>, fileName: string, elementName: string): (r: Result<By, LocatorError>)
    ensures loaded.Err? ==> r == Err(loaded.error)
    ensures loaded.Ok? && elementName !in loaded.value ==> r == Err(LocatorNotFound(elementName, fileName))
    ensures loaded.Ok? && elementName in loaded.value ==> r == ToBy(loaded.value[elementName])
  {
    match loaded
    case Err(e) => Err(e)
    case Ok(t) => if elementName in t then ToBy(t[elementName]) else Err(LocatorNotFound(elementName, fileName))
  }

  /** The static state of LocatorManager: the cache of loaded tables. */
  class LocatorManager {
    var cache: map<string, Table>

    ghost predicate Valid()
      reads this
    {
      forall f :: f in cache ==> LowerCaseTable(cache[f])
    }

    constructor ()
      ensures Valid() && cache == map[]
    {
      cache := map[];
    }

    /** The table loadLocators returns in the current state. */
    function Loaded(files: map<string, LocatorFile>, fileName: string): (r: Result<Table, LocatorError>)
      reads this
      ensures fileName in cache ==> r == Ok(cache[fileName])
      ensures fileName !in cache ==> r == LoadFromDisk(files, fileName)
      ensures Valid() && r.Ok? ==> LowerCaseTable(r.value)
    {
      if fileName in cache then Ok(cache[fileName]) else LoadFromDisk(files, fileName)
    }

    /** loadLocators: a cached file is served from the cache without reading;
        otherwise the file is read and, only if that succeeds, cached. */
    method LoadLocators(files: map<string, LocatorFile>, fileName: string) returns (r: Result<Table, LocatorError>)
      requires Valid()
      modifies this
      ensures Valid()
      ensures r == old(Loaded(files, fileName))
      ensures fileName in old(cache) ==> cache == old(cache)
      ensures fileName !in old(cache) && r.Ok? ==> cache == old(cache)[fileName := r.value]
      ensures r.Err? ==> cache == old(cache)
    {
      if fileName in cache {
        return Ok(cache[fileName]);
      }
      var path := LocatorsPath + fileName;
      if path !in files {
        return Err(FileNotFound(path));
      }
      match files[path] {
        case Unreadable =>
          return Err(LoadFailed(path));
        case Parsed(root) =>
          r := BuildTable(LocatorFields(root));
          if r.Ok? {
            cache := cache[fileName := r.value];
          }
      }
    }

    /** getLocator: load the table, then look the element up and convert it. */
    method GetLocator(files: map<string, LocatorFile>, fileName: string, elementName: string)
      returns (r: Result<By, LocatorError>)
      requires Valid()
      modifies this
      ensures Valid()
      ensures r == LocatorIn(old(Loaded(files, fileName)), fileName, elementName)
      ensures fileName in old(cache) ==> cache == old(cache)
      ensures fileName !in old(cache) ==>
        cache == (if old(Loaded(files, fileName)).Ok? then old(cache)[fileName := old(Loaded(files, fileName)).value]
                  else old(cache))
    {
      var loaded := LoadLocators(files, fileName);
      match loaded {
        case Err(e) =>
          return Err(e);
        case Ok(t) =>
          if elementName !in t {
            return Err(LocatorNotFound(elementName, fileName));
          }
          return ToBy(t[elementName]);
      }
    }

    /** getLocatorInfo: like getLocator, but a missing element is null. */
    method GetLocatorInfo(files: map<string, LocatorFile>, fileName: string, elementName: string)
      returns (r: Result<Option<LocatorInfo>, LocatorError>)
      requires Valid()
      modifies this
      ensures Valid()
      ensures old(Loaded(files, fileName)).Err? ==> r == Err(old(Loaded(files, fileName)).error)
      ensures old(Loaded(files, fileName)).Ok? ==>
        var t := old(Loaded(files, fileName)).value;
        r == Ok(if elementName in t then Some(t[elementName]) else None)
      ensures fileName in old(cache) ==> cache == old(cache)
      ensures fileName !in old(cache) ==>
        cache == (if old(Loaded(files, fileName)).Ok? then old(cache)[fileName := old(Loaded(files, fileName)).value]
                  else old(cache))
    {
      var loaded := LoadLocators(files, fileName);
      match loaded {
        case Err(e) =>
          return Err(e);
        case Ok(t) =>
          return Ok(if elementName in t then Some(t[elementName]) else None);
      }
    }

    /** clearCache: forget every loaded table. */
    method ClearCache()
      modifies this
      ensures Valid() && cache == map[]
    {
      cache := map[];
    }
  }

  /** Loading twice serves the second call from the cache, whatever the
      file system says by then, until the cache is cleared. */
  method LoadTwiceServesCache(m: LocatorManager, before: map<string, LocatorFile>,
                              after: map<string, LocatorFile>, fileName: string)
    returns (first: Result<Table, LocatorError>, second: Result<Table, LocatorError>)
    requires m.Valid()
    modifies m
    ensures m.Valid()
    ensures first.Ok? ==> second == first
  {
    first := m.LoadLocators(before, fileName);
    second := m.LoadLocators(after, fileName);
  }
}
