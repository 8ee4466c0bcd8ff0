/** Reading the XML configuration into a dictionary, and the defaults `validate_refine_config`
    gives the integer settings. */
module Config {
  import opened Wrappers

  /** An XML element: its tag, its text (`None` when it has none) and its child elements. */
  datatype Element = Element(tag: string, text: Option<string>, children: seq<Element>)

  /** What `parse_config_element` returns: the text of a leaf, or a dictionary from child tag
      to child value. */
  datatype ConfigValue = Leaf(text: Option<string>) | Dict(entries: map<string, ConfigValue>)

  /** The value of an element: its text when it has no children, else its children's values. */
  function ElementValue(e: Element): ConfigValue
    decreases e
  {
    if |e.children| == 0 then Leaf(e.text) else Dict(ChildValues(e, |e.children|))
  }

  /** The dictionary built from the first `n` children of `parent`, later tags overwriting
      earlier ones. */
  function ChildValues(parent: Element, n: nat): map<string, ConfigValue>
    requires n <= |parent.children|
    decreases parent, n
  {
    if n == 0 then map[]
    else ChildValues(parent, n - 1)[parent.children[n - 1].tag := ElementValue(parent.children[n - 1])]
  }

  /** `parse_config_element`, with its loop over the children. */
  method ParseConfigElement(element: Element) returns (r: ConfigValue)
    ensures r == ElementValue(element)
    decreases element
  {
    if |element.children| == 0 {
      return Leaf(element.text);
    }
    var childDict: map<string, ConfigValue> := map[];
    for i := 0 to |element.children|
      invariant childDict == ChildValues(element, i)
    {
      var child := element.children[i];
      var value := ParseConfigElement(child);
      childDict := childDict[child.tag := value];
    }
    return Dict(childDict);
  }

  /** `parse_config`: the root's children, by tag. */
  function ParseConfig(root: Element): (r: map<string, ConfigValue>)
    ensures forall t :: t in r <==> exists i :: 0 <= i < |root.children| && root.children[i].tag == t
  {
    ChildKeys(root, |root.children|);
    ChildValues(root, |root.children|)
  }

  /** The keys of the dictionary are exactly the tags of the children read. */
  lemma {:induction false} ChildKeys(parent: Element, n: nat)
    requires n <= |parent.children|
    ensures forall t :: t in ChildValues(parent, n) <==> exists i :: 0 <= i < n && parent.children[i].tag == t
  {
    if n > 0 {
      ChildKeys(parent, n - 1);
    }
  }

  /** A leaf is exactly an element without children, and a dictionary has one key per tag. */
  lemma ElementValueShape(e: Element)
    ensures ElementValue(e).Leaf? <==> |e.children| == 0
    ensures ElementValue(e).Leaf? ==> ElementValue(e).text == e.text
    ensures ElementValue(e).Dict? ==>
              forall t :: t in ElementValue(e).entries <==> exists i :: 0 <= i < |e.children| && e.children[i].tag == t
  {
    ChildKeys(e, |e.children|);
  }

  /** Of children sharing a tag, the last one read supplies the value. */
  lemma {:induction false} LastDuplicateWins(parent: Element, n: nat, j: nat)
    requires j < n <= |parent.children|
    requires forall k :: j < k < n ==> parent.children[k].tag != parent.children[j].tag
    ensures parent.children[j].tag in ChildValues(parent, n)
    ensures ChildValues(parent, n)[parent.children[j].tag] == ElementValue(parent.children[j])
  {
    if n - 1 > j {
      LastDuplicateWins(parent, n - 1, j);
    }
  }

  // ---------------------------------------------------------------------------
  // Integer settings

  /** A value held in the configuration dictionary: as parsed, or converted by `int()`. */
  datatype Value = Parsed(value: ConfigValue) | Number(n: int)

  datatype ConfigError = NotAnInt(key: string)

  /** Python truthiness of a dictionary value. */
  predicate Truthy(v: Value)
  {
    match v
    case Parsed(Leaf(text)) => text.Some? && text.value != ""
    case Parsed(Dict(entries)) => entries != map[]
    case Number(n) => n != 0
  }

  /** `int(value)`; `toInt` is Python's conversion of a string, and a dictionary raises. */
  function IntOf(v: Value, toInt: string -> Option<int>): Option<int>
  {
    match v
    case Parsed(Leaf(Some(s))) => toInt(s)
    case Parsed(_) => None
    case Number(n) => Some(n)
  }

  const TimeDelayDefault := 86400
  const NKeysDefault := 500
  const NLoopsDefault := 10

  /** The `int` check followed by the default for one key: a set value is converted, and a
      missing or falsy one (including a converted zero) becomes `default`. */
  function RefineInt(entries: map<string, Value>, key: string, default: int, toInt: string -> Option<int>)
    : Result<map<string, Value>, ConfigError>
  {
    if key in entries && Truthy(entries[key]) then
      match IntOf(entries[key], toInt)
      case None => Failure(NotAnInt(key))
      case Some(n) => Success(entries[key := Number(if n != 0 then n else default)])
    else
      Success(entries[key := Number(default)])
  }

  /** The three integer settings `start_segregation` reads, refined in the order they are checked. */
  function RefineDefaults(entries: map<string, Value>, toInt: string -> Option<int>): Result<map<string, Value>, ConfigError>
  {
    match RefineInt(entries, "time_delay", TimeDelayDefault, toInt)
    case Failure(e) => Failure(e)
    case Success(e1) =>
      match RefineInt(e1, "n_keys", NKeysDefault, toInt)
      case Failure(e) => Failure(e)
      case Success(e2) => RefineInt(e2, "n_loops", NLoopsDefault, toInt)
  }

  /** The dictionary `validate_refine_config` rewrites in place. */
  class ConfigDict {
    var entries: map<string, Value>

    constructor (entries: map<string, Value>)
      ensures this.entries == entries
    {
      this.entries := entries;
    }

    /** One key's `int` check and default, applied to the dictionary. */
    method RefineIntSetting(key: string, default: int, toInt: string -> Option<int>) returns (r: Result<(), ConfigError>)
      modifies this
      ensures r.Failure? <==> RefineInt(old(entries), key, default, toInt).Failure?
      ensures r.Failure? ==> r.error == NotAnInt(key) && entries == old(entries)
      ensures r.Success? ==> entries == RefineInt(old(entries), key, default, toInt).value
    {
      if key in entries && Truthy(entries[key]) {
        var n := IntOf(entries[key], toInt);
        if n.None? {
          return Failure(NotAnInt(key));
        }
        entries := entries[key := Number(n.value)];
      }
      if !(key in entries && Truthy(entries[key])) {
        entries := entries[key := Number(default)];
      }
      return Success(());
    }

    /** The `time_delay`, `n_keys` and `n_loops` passes of `validate_refine_config`. */
    method RefineIntSettings(toInt: string -> Option<int>) returns (r: Result<(), ConfigError>)
      modifies this
      ensures r.Success? <==> RefineDefaults(old(entries), toInt).Success?
      ensures r.Success? ==> entries == RefineDefaults(old(entries), toInt).value
    {
      r := RefineIntSetting("time_delay", TimeDelayDefault, toInt);
      if r.Failure? {
        return;
      }
      r := RefineIntSetting("n_keys", NKeysDefault, toInt);
      if r.Failure? {
        return;
      }
      r := RefineIntSetting("n_loops", NLoopsDefault, toInt);
    }
  }

  /** After the pass the key holds a non-zero number: the converted value when it was set and
      non-zero, the default otherwise; no other key changes. */
  lemma RefineIntResult(entries: map<string, Value>, key: string, default: int, toInt: string -> Option<int>)
    requires default != 0
    requires RefineInt(entries, key, default, toInt).Success?
    ensures var refined := RefineInt(entries, key, default, toInt).value;
            && key in refined && refined[key].Number? && refined[key].n != 0
            && (key !in entries || !Truthy(entries[key]) ==> refined[key] == Number(default))
            && (key in entries && Truthy(entries[key]) && IntOf(entries[key], toInt) != Some(0) ==>
                  refined[key] == Number(IntOf(entries[key], toInt).value))
            && forall k :: k != key ==> (k in refined <==> k in entries) && (k in refined ==> refined[k] == entries[k])
  {
  }

  /** The conversion fails exactly when a set value is not an integer. */
  lemma RefineIntFails(entries: map<string, Value>, key: string, default: int, toInt: string -> Option<int>)
    ensures RefineInt(entries, key, default, toInt).Failure? <==>
              key in entries && Truthy(entries[key]) && IntOf(entries[key], toInt).None?
  {
  }

  /** Refining an already refined key changes nothing. */
  lemma RefineIntIdempotent(entries: map<string, Value>, key: string, default: int, toInt: string -> Option<int>)
    requires default != 0
    requires RefineInt(entries, key, default, toInt).Success?
    ensures var once := RefineInt(entries, key, default, toInt).value;
            RefineInt(once, key, default, toInt) == Success(once)
  {
    var once := RefineInt(entries, key, default, toInt).value;
    RefineIntResult(entries, key, default, toInt);
    assert once[key := once[key]] == once;
  }

  /** A configuration that sets none of the three keys gets 86400, 500 and 10. */
  lemma MissingSettingsGetDefaults(entries: map<string, Value>, toInt: string -> Option<int>)
    requires "time_delay" !in entries && "n_keys" !in entries && "n_loops" !in entries
    ensures RefineDefaults(entries, toInt).Success?
    ensures var refined := RefineDefaults(entries, toInt).value;
            && refined["time_delay"] == Number(86400)
            && refined["n_keys"] == Number(500)
            && refined["n_loops"] == Number(10)
  {
  }
}
