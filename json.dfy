/**
 * Values produced by `JSON.parse`, and the three JavaScript operations the
 * request handlers apply to them: truthiness (`!value`), conversion to a
 * string inside a template literal (`${value}`) and object spread
 * (`{...value}`). `JSON.parse` itself is not defined here: every handler
 * takes it as a parameter of type `Parser`.
 */
module Json {
  import opened Options
  import opened Strings

  /** A parsed JSON value. Numbers are integers; duplicate keys have been resolved (the last one wins). */
  datatype Json =
    | JNull
    | JBool(b: bool)
    | JNumber(n: int)
    | JString(s: string)
    | JArray(items: seq<Json>)
    | JObject(fields: map<string, Json>)

  /** `JSON.parse`: the parsed value, or None where it throws a SyntaxError. */
  type Parser = string -> Option<Json>

  /** JavaScript truthiness: null, false, 0 and "" are falsy; every array and object, even an empty one, is truthy. */
  predicate Truthy(j: Json) {
    match j
    case JNull => false
    case JBool(b) => b
    case JNumber(n) => n != 0
    case JString(s) => s != ""
    case JArray(_) => true
    case JObject(_) => true
  }

  /**
   * `String(value)`, which is how `${value}` renders a parsed value, or None
   * where that throws a TypeError. An object renders as "[object Object]"
   * unless it has its own "toString" entry: a parsed value is never
   * callable, and the inherited `valueOf` returns the object itself, so no
   * primitive is found. An array renders as its elements joined by ",",
   * with null as "", so it throws when any element, at any depth, does.
   */
  function Display(j: Json): (r: Option<string>)
    ensures j.JString? ==> r == Some(j.s)
    ensures j.JObject? ==> (r.None? <==> "toString" in j.fields)
    ensures j.JArray? ==> (r.None? <==> exists i | 0 <= i < |j.items| :: Display(j.items[i]).None?)
  {
    match j
    case JNull => Some("null")
    case JBool(b) => Some(if b then "true" else "false")
    case JNumber(n) => Some(IntToString(n))
    case JString(s) => Some(s)
    case JArray(items) =>
      if forall i | 0 <= i < |items| :: Display(items[i]).Some? then
        Some(Join(",", seq(|items|, i requires 0 <= i < |items| => if items[i].JNull? then "" else Display(items[i]).value)))
      else None
    case JObject(fields) => if "toString" in fields then None else Some("[object Object]")
  }

  /**
   * `array.map(x => `${x}`)`: one rendering per element, or None when
   * rendering some element throws.
   */
  function DisplayAll(items: seq<Json>): (r: Option<seq<string>>)
    ensures r.Some? <==> forall i | 0 <= i < |items| :: Display(items[i]).Some?
    ensures r.Some? ==> |r.value| == |items| && forall i | 0 <= i < |items| :: Display(items[i]) == Some(r.value[i])
  {
    if forall i | 0 <= i < |items| :: Display(items[i]).Some? then
      Some(seq(|items|, i requires 0 <= i < |items| => Display(items[i]).value))
    else None
  }

  /** The parsed form of a list of strings renders as those strings. */
  lemma DisplayStrings(reqs: seq<string>)
    ensures DisplayAll(seq(|reqs|, i requires 0 <= i < |reqs| => JString(reqs[i]))) == Some(reqs)
  {
    var items := seq(|reqs|, i requires 0 <= i < |reqs| => JString(reqs[i]));
    forall i | 0 <= i < |items|
      ensures Display(items[i]) == Some(reqs[i])
    {
      assert items[i] == JString(reqs[i]);
    }
    assert DisplayAll(items).Some?;
    var r := DisplayAll(items).value;
    assert |r| == |reqs|;
    forall i | 0 <= i < |r|
      ensures r[i] == reqs[i]
    {
      assert Display(items[i]) == Some(r[i]);
    }
    assert r == reqs;
  }

  /**
   * An element that is an object with its own "toString" entry, such as
   * `{"toString": 0}`, makes the whole rendering throw.
   */
  lemma OwnToStringThrows(items: seq<Json>, k: nat)
    requires k < |items| && items[k].JObject? && "toString" in items[k].fields
    ensures DisplayAll(items).None?
  {
    assert Display(items[k]).None?;
  }

  /** The entries "0", "1", ... of an object built from an indexed list. */
  function IndexEntries(xs: seq<Json>): (m: map<string, Json>)
    ensures forall i | 0 <= i < |xs| :: NatToString(i) in m && m[NatToString(i)] == xs[i]
  {
    if xs == [] then map[]
    else
      var n := |xs| - 1;
      var m := IndexEntries(xs[..n]);
      assert forall i | 0 <= i < n :: NatToString(i) != NatToString(n) by {
        forall i | 0 <= i < n ensures NatToString(i) != NatToString(n) {
          if NatToString(i) == NatToString(n) {
            NatToStringInjective(i, n);
          }
        }
      }
      m[NatToString(n) := xs[n]]
  }

  /**
   * `{...value}`: an object keeps its entries, an array or a string is
   * spread into one entry per index, and every other value adds nothing.
   */
  function Spread(j: Json): (m: map<string, Json>)
    ensures j.JObject? ==> m == j.fields
    ensures j.JArray? ==> forall i | 0 <= i < |j.items| :: NatToString(i) in m && m[NatToString(i)] == j.items[i]
    ensures j.JString? ==> forall i | 0 <= i < |j.s| :: NatToString(i) in m && m[NatToString(i)] == JString([j.s[i]])
    ensures !(j.JObject? || j.JArray? || j.JString?) ==> m == map[]
  {
    match j
    case JObject(fields) => fields
    case JArray(items) => IndexEntries(items)
    case JString(s) => IndexEntries(seq(|s|, i requires 0 <= i < |s| => JString([s[i]])))
    case _ => map[]
  }
}
