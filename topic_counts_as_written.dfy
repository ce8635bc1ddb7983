/**
 * `updateCoveredTopics` as written reads each count as `map[topic] || 0` on a
 * plain object. A key that is not an own property falls through to the
 * object's prototype, so a topic named like an `Object.prototype` member
 * ("constructor", "toString", "__defineGetter__", …) reads an inherited
 * function, and `+ 1` then concatenates its source text instead of counting;
 * the topic "__proto__" reads the prototype itself, and the write goes to the
 * inherited `__proto__` setter, which ignores a string. This module models
 * that lookup and that write; Generator.Bumped is the intended count.
 */
module TopicCountsAsWritten {
  import opened Wrappers
  import opened QuizData
  import Generator

  /**
   * The values a stored count can take here: a number, a string, a built-in
   * function (by its name) or `Object.prototype` itself.
   */
  datatype JsValue = Num(n: int) | Str(s: string) | Fn(name: string) | Proto

  /** Own properties of the parsed `coveredTopics` object. */
  type JsObject = map<string, JsValue>

  /**
   * The properties of `Object.prototype` (section 20.1.3 of ECMAScript 2024,
   * with the legacy accessors of its Annex B.2.2). Every one is a built-in
   * function except `__proto__`, whose getter returns the prototype itself.
   */
  function Inherited(key: string): Option<JsValue> {
    if key == "__proto__" then Some(Proto)
    else if key == "constructor" then Some(Fn("Object"))
    else if key in {"toString", "valueOf", "hasOwnProperty", "isPrototypeOf",
                    "propertyIsEnumerable", "toLocaleString", "__defineGetter__",
                    "__defineSetter__", "__lookupGetter__", "__lookupSetter__"}
    then Some(Fn(key))
    else None
  }

  /**
   * What `String(f)` gives for a built-in function `f`. The standard only
   * demands text of the NativeFunction form; this is the form common engines
   * print.
   */
  function FunctionText(name: string): string {
    "function " + name + "() { [native code] }"
  }

  /** `obj[key]`: an own property, else an inherited one, else undefined (None). */
  function Lookup(obj: JsObject, key: string): Option<JsValue> {
    if key in obj then Some(obj[key]) else Inherited(key)
  }

  predicate Truthy(v: JsValue) {
    match v
    case Num(n) => n != 0
    case Str(s) => s != []
    case Fn(_) => true
    case Proto => true
  }

  /** `v + 1`: numbers add, anything else is converted to text and concatenated. */
  function PlusOne(v: JsValue): JsValue {
    match v
    case Num(n) => Num(n + 1)
    case Str(s) => Str(s + "1")
    case Fn(name) => Str(FunctionText(name) + "1")
    case Proto => Str("[object Object]1")
  }

  /**
   * `obj[key] = v` for the number or string `v` that `PlusOne` yields: an own
   * property, or a new one, is written, except that `__proto__` without an
   * own property of that name reaches the inherited setter, which ignores
   * anything that is not an object.
   */
  function Store(obj: JsObject, key: string, v: JsValue): (o: JsObject)
    requires v.Num? || v.Str?
    ensures key == "__proto__" && key !in obj ==> o == obj
    ensures key != "__proto__" || key in obj ==> o == obj[key := v]
  {
    if key == "__proto__" && key !in obj then obj else obj[key := v]
  }

  /** `coveredTopicMap[topic] = (coveredTopicMap[topic] || 0) + 1` for each topic in turn. */
  function UpdatedAsWritten(obj: JsObject, topics: seq<string>): JsObject
    decreases topics
  {
    if topics == [] then obj
    else
      var t := topics[0];
      var current := Lookup(obj, t);
      var base := if current.Some? && Truthy(current.value) then current.value else Num(0);
      UpdatedAsWritten(Store(obj, t, PlusOne(base)), topics[1..])
  }

  /** Counts as a JavaScript object of numbers. */
  function AsObject(m: TopicCounts): (o: JsObject)
    ensures o.Keys == m.Keys && forall k :: k in m ==> o[k] == Num(m[k])
  {
    map k | k in m :: Num(m[k])
  }

  /**
   * A first quiz on the topic "constructor" stores a string (the text of the
   * `Object` function followed by "1"), where the intended count is 1.
   */
  lemma ConstructorTopicIsNotCounted()
    ensures var v := UpdatedAsWritten(map[], ["constructor"])["constructor"];
      v.Str? && v == Str(FunctionText("Object") + "1") && v != Num(1)
    ensures Generator.Bumped(map[], ["constructor"])["constructor"] == 1
  {
    assert ["constructor"][1..] == [];
  }

  /**
   * A first quiz on the topic "__proto__" stores no count at all: the map
   * stays empty, where the intended count is 1.
   */
  lemma ProtoTopicIsNotCounted()
    ensures UpdatedAsWritten(map[], ["__proto__"]) == map[]
    ensures Generator.Bumped(map[], ["__proto__"])["__proto__"] == 1
  {
    assert ["__proto__"][1..] == [];
  }

  /**
   * For every inherited name that is not yet an own key, the first quiz on
   * that topic never stores the intended count 1: a string ends up under the
   * key, or, for "__proto__", nothing does.
   */
  lemma InheritedTopicIsNotCounted(obj: JsObject, t: string)
    requires t !in obj && Inherited(t).Some?
    ensures var o := UpdatedAsWritten(obj, [t]);
      && o != obj[t := Num(1)]
      && (t in o ==> o[t].Str?)
      && (t == "__proto__" <==> o == obj)
  {
    assert [t][1..] == [];
    var o := UpdatedAsWritten(obj, [t]);
    if t != "__proto__" {
      assert t in o && t !in obj;
    }
  }

  /**
   * Away from the inherited names the code as written counts exactly as
   * intended: it agrees with Generator.Bumped.
   */
  lemma {:induction false} AsWrittenAgreesOffPrototype(m: TopicCounts, topics: seq<string>)
    requires forall k :: 0 <= k < |topics| ==> Inherited(topics[k]).None?
    ensures UpdatedAsWritten(AsObject(m), topics) == AsObject(Generator.Bumped(m, topics))
    decreases topics
  {
    if topics != [] {
      var t := topics[0];
      var m' := m[t := Generator.TimesUsed(m, t) + 1];
      assert AsObject(m)[t := PlusOne(if t in m && m[t] != 0 then Num(m[t]) else Num(0))] == AsObject(m');
      AsWrittenAgreesOffPrototype(m', topics[1..]);
    }
  }
}
