/**
 * The input-schema check applied to a parsed configuration document before any
 * enumeration runs (validate_yaml in service_enum.py).
 */
module Validation {
  import opened Wrappers

  /** A scalar that can stand as a key of a parsed YAML mapping. */
  datatype Key = NullKey | BoolKey(b: bool) | IntKey(i: int) | StrKey(s: string)

  /** A parsed YAML document. */
  datatype Value =
    | Null
    | Bool(b: bool)
    | Int(i: int)
    | Str(s: string)
    | List(items: seq<Value>)
    | Map(entries: map<Key, Value>)

  const IpKey: Key := StrKey("ip")
  const ServicesKey: Key := StrKey("services")

  /** The four rejection rules, in the order in which they are checked. */
  datatype ValidationError = NotObject | MissingKeys | ServicesNotList | NonStringService

  /** The text of the ValueError raised for each rule. */
  function Message(e: ValidationError): (m: string)
    ensures |m| > 0 && m[|m| - 1] == '.'
  {
    match e
    case NotObject => "Input YAML must be an object."
    case MissingKeys => "YAML must contain 'ip' and 'services' keys."
    case ServicesNotList => "'services' must be a list."
    case NonStringService => "Each service in 'services' must be a string."
  }

  /** Every rule reports its own message, so a user can tell which rule failed. */
  lemma MessagesDistinct(e1: ValidationError, e2: ValidationError)
    ensures Message(e1) == Message(e2) ==> e1 == e2
  {
  }

  /** Python's `all(isinstance(service, str) for service in items)`, element by element. */
  function AllStrings(items: seq<Value>): (b: bool)
    ensures b <==> forall i :: 0 <= i < |items| ==> items[i].Str?
  {
    items == [] || (items[0].Str? && AllStrings(items[1..]))
  }

  /** The schema stated declaratively: a mapping with both keys whose services are all strings. */
  predicate Conforms(data: Value)
  {
    && data.Map?
    && IpKey in data.entries
    && ServicesKey in data.entries
    && data.entries[ServicesKey].List?
    && forall v :: v in data.entries[ServicesKey].items ==> v.Str?
  }

  /**
   * validate_yaml: the rules are checked in order and the first one violated is
   * reported; the value stored under "ip" is never looked at.
   */
  function Validate(data: Value): (r: Outcome<ValidationError>)
    ensures r == Fail(NotObject) <==> !data.Map?
    ensures r == Fail(MissingKeys) <==>
      data.Map? && (IpKey !in data.entries || ServicesKey !in data.entries)
    ensures r == Fail(ServicesNotList) <==>
      data.Map? && IpKey in data.entries && ServicesKey in data.entries
      && !data.entries[ServicesKey].List?
    ensures r == Fail(NonStringService) <==>
      data.Map? && IpKey in data.entries && ServicesKey in data.entries
      && data.entries[ServicesKey].List?
      && exists v :: v in data.entries[ServicesKey].items && !v.Str?
    ensures r == Pass <==> Conforms(data)
  {
    if !data.Map? then Fail(NotObject)
    else if IpKey !in data.entries || ServicesKey !in data.entries then Fail(MissingKeys)
    else if !data.entries[ServicesKey].List? then Fail(ServicesNotList)
    else if !AllStrings(data.entries[ServicesKey].items) then Fail(NonStringService)
    else Pass
  }

  /** The service names of an accepted document, as the dispatcher receives them. */
  function ServiceNames(data: Value): (names: seq<string>)
    requires Validate(data) == Pass
    ensures |names| == |data.entries[ServicesKey].items|
    ensures forall i :: 0 <= i < |names| ==> data.entries[ServicesKey].items[i] == Str(names[i])
  {
    var items := data.entries[ServicesKey].items;
    seq(|items|, i requires 0 <= i < |items| => items[i].s)
  }

  /** The YAML list holding the given strings. */
  function StrList(names: seq<string>): Value
  {
    List(seq(|names|, i requires 0 <= i < |names| => Str(names[i])))
  }

  /** A document with the given address value, service names and any further keys. */
  function Document(ip: Value, names: seq<string>, others: map<Key, Value>): Value
  {
    Map(others[IpKey := ip][ServicesKey := StrList(names)])
  }

  /**
   * Soundness of the schema: every document built from an address of any type,
   * a list of strings (possibly empty) and arbitrary further keys is accepted.
   */
  lemma AcceptsEveryDocument(ip: Value, names: seq<string>, others: map<Key, Value>)
    ensures Validate(Document(ip, names, others)) == Pass
  {
    var items := StrList(names).items;
    forall v | v in items ensures v.Str? {
      var i :| 0 <= i < |items| && items[i] == v;
    }
  }

  /** Completeness: every accepted document is one of those documents. */
  lemma AcceptedIsDocument(data: Value)
    requires Validate(data) == Pass
    ensures data == Document(data.entries[IpKey], ServiceNames(data), data.entries)
  {
    var items := data.entries[ServicesKey].items;
    assert StrList(ServiceNames(data)).items == items;
  }

  /** Replacing the value under "ip" by anything never changes the verdict. */
  lemma IpNeverInspected(entries: map<Key, Value>, v: Value)
    requires IpKey in entries
    ensures Validate(Map(entries[IpKey := v])) == Validate(Map(entries))
  {
    assert IpKey != ServicesKey;
  }

  /** One minimal rejected document per rule, and the smallest accepted one. */
  lemma MinimalDocuments()
    ensures Validate(List([])) == Fail(NotObject)
    ensures Validate(Map(map[IpKey := Str("10.0.0.5")])) == Fail(MissingKeys)
    ensures Validate(Map(map[ServicesKey := StrList(["smb"])])) == Fail(MissingKeys)
    ensures Validate(Map(map[IpKey := Str("10.0.0.5"), ServicesKey := Str("smb")])) == Fail(ServicesNotList)
    ensures Validate(Map(map[IpKey := Str("10.0.0.5"), ServicesKey := List([Int(445)])])) == Fail(NonStringService)
    ensures Validate(Map(map[IpKey := Null, ServicesKey := List([])])) == Pass
  {
    assert IpKey != ServicesKey;
    assert List([Int(445)]).items[0] == Int(445);
  }
}
