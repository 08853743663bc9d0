/** The `MicrophoneSensivity` enum of src/SoundController.ts: three levels, each standing for
    the loudness jump (in byte units) that counts as a "loud moment". A TypeScript numeric enum
    is a number at run time, so the state of the sound controller is the numeric value and the
    names are found through the enum's reverse mapping. */
module Sensitivity {
  import opened Wrappers

  datatype Level = Low | Medium | High

  /** The number each member is declared with. */
  function Value(l: Level): int
  {
    match l
    case Low => 60
    case Medium => 30
    case High => 10
  }

  /** The member's name, as the enum object maps it. */
  function Name(l: Level): string
  {
    match l
    case Low => "Low"
    case Medium => "Medium"
    case High => "High"
  }

  /** The level a sound controller starts with. */
  const Initial: Level := High

  /** A number that is the value of some member. */
  predicate IsLevelValue(v: int)
  {
    v == 60 || v == 30 || v == 10
  }

  /** `MicrophoneSensivity[name]`: the forward mapping from a member's name to its level. */
  function Lookup(name: string): (r: Option<Level>)
    ensures r.Some? ==> Name(r.value) == name
    ensures forall l: Level :: Name(l) == name ==> r == Some(l)
  {
    if name == "Low" then Some(Low)
    else if name == "Medium" then Some(Medium)
    else if name == "High" then Some(High)
    else None
  }

  /** `MicrophoneSensivity[value]`: the reverse mapping TypeScript adds to a numeric enum,
      from a member's value to its name; any other number gives `undefined`. */
  function ReverseLookup(v: int): (r: Option<string>)
    ensures r.Some? <==> IsLevelValue(v)
    ensures forall l: Level :: Value(l) == v ==> r == Some(Name(l))
  {
    if v == 60 then Some("Low")
    else if v == 30 then Some("Medium")
    else if v == 10 then Some("High")
    else None
  }

  /** `Object.values(MicrophoneSensivity).filter(key => typeof key === 'number')`. The enum
      object holds the reverse-mapping keys "10", "30", "60" (whose values are names, and are
      filtered out) and the member keys in declaration order, so the numbers come out in
      declaration order: Low, Medium, High. */
  const EnumValues: seq<int> := [Value(Low), Value(Medium), Value(High)]

  /** `Array.prototype.indexOf`: the first position holding `x`, or -1. */
  function IndexOf(s: seq<int>, x: int): (r: int)
    ensures -1 <= r < |s|
    ensures r == -1 <==> x !in s
    ensures 0 <= r ==> s[r] == x && x !in s[..r]
  {
    if s == [] then -1
    else if s[0] == x then 0
    else
      var i := IndexOf(s[1..], x);
      if i == -1 then -1
      else
        assert s[..i + 1] == [s[0]] + s[1..][..i];
        i + 1
  }

  /** The new value `changeSensitivity` stores: `values[index + 1] || values[0]`. The element
      after the current one is taken when it exists and is truthy (not `undefined`, not 0);
      otherwise the first value is taken, which is what wraps the cycle. */
  function NextValue(v: int): (r: int)
    ensures r in EnumValues
  {
    var i := IndexOf(EnumValues, v);
    if i + 1 < |EnumValues| && EnumValues[i + 1] != 0 then EnumValues[i + 1]
    else EnumValues[0]
  }

  /** The cycle written out member by member: High to Low, Low to Medium, Medium to High. */
  function Successor(l: Level): Level
  {
    match l
    case High => Low
    case Low => Medium
    case Medium => High
  }

  /** The index-based rule of `changeSensitivity` follows the written-out cycle. */
  lemma NextValueIsSuccessor(l: Level)
    ensures NextValue(Value(l)) == Value(Successor(l))
    ensures ReverseLookup(NextValue(Value(l))) == Some(Name(Successor(l)))
  {
  }

  /** `changeSensitivity` has period exactly three on every level: three calls return to the
      start, and one or two calls never do. */
  lemma CycleHasPeriodThree(l: Level)
    ensures NextValue(NextValue(NextValue(Value(l)))) == Value(l)
    ensures NextValue(Value(l)) != Value(l) && NextValue(NextValue(Value(l))) != Value(l)
  {
  }

  /** A number that is no member's value (which a correct caller never stores) moves to the
      first declared level, Low. */
  lemma NextValueOfUnknown(v: int)
    requires !IsLevelValue(v)
    ensures NextValue(v) == Value(Low)
  {
  }
}
