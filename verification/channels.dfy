/**
 * The output side of the adapter: the channel-suffix table and the two
 * writers `set` and `setDSL` (main.js:89-101, 144-157). Every device write
 * is recorded as a `Write` of a value to a named channel.
 */
module Channels {

  // Channel-name suffixes and prefixes from the `sub` table.
  const Wo := ""
  const Double := "-double"
  const Single := "-single-short"
  const Long := "-long"
  const Action := "-action"
  const Dsl := "-dsl"
  const Repcnt := "-repcnt"
  const Raw := "raw"
  const Key := "key"

  /** The seven suffixes, in the order of the `sub` table. */
  const Suffixes: seq<string> := [Wo, Double, Single, Long, Action, Dsl, Repcnt]

  /** The fourteen channels the adapter creates: each prefix with each suffix. */
  predicate KnownChannel(channel: string)
  {
    exists i :: 0 <= i < |Suffixes| && (channel == Raw + Suffixes[i] || channel == Key + Suffixes[i])
  }

  /** One `dev.set(channel, value)` call. */
  datatype Write = Write(channel: string, value: string)

  /** The mapping table treats an entry as present only when its name is non-empty (JavaScript truthiness). */
  predicate Mapped(mappings: map<string, string>, val: string)
  {
    val in mappings && mappings[val] != ""
  }

  /**
   * `set(name, val, ext)`: the raw channel always receives `val + ext`; the
   * key channel receives the mapped name plus `ext` only when `val` is mapped.
   */
  function Set(mappings: map<string, string>, name: string, val: string, ext: string): (w: seq<Write>)
    ensures 1 <= |w| <= 2
    ensures w[0] == Write(Raw + name, val + ext)
    ensures |w| == 2 <==> Mapped(mappings, val)
    ensures |w| == 2 ==> w[1] == Write(Key + name, mappings[val] + ext)
  {
    [Write(Raw + name, val + ext)]
      + if Mapped(mappings, val) then [Write(Key + name, mappings[val] + ext)] else []
  }

  /**
   * `setDSL(name, val)`: `set(name, val)` followed by `set` on the dsl
   * channel of `val`, a dot, and `name` without its leading dash. The raw
   * dsl write always happens; the key dsl write follows only when that
   * composed string itself is mapped, and carries its mapping.
   */
  function SetDsl(mappings: map<string, string>, name: string, val: string): (w: seq<Write>)
    requires |name| >= 1
    ensures var first := Set(mappings, name, val, "");
      var kind := val + "." + name[1..];
      && |w| == |first| + (if Mapped(mappings, kind) then 2 else 1)
      && w[..|first|] == first
      && w[|first|] == Write(Raw + Dsl, kind)
      && (Mapped(mappings, kind) ==> w[|first| + 1] == Write(Key + Dsl, mappings[kind]))
  {
    Set(mappings, name, val, "") + Set(mappings, Dsl, val + "." + name[1..], "")
  }

  /**
   * The three click kinds write `code.double`, `code.single-short` and
   * `code.long` to the raw dsl channel, right after their own channel.
   */
  lemma DslValues(mappings: map<string, string>, code: string)
    ensures SetDsl(mappings, Double, code)[|Set(mappings, Double, code, "")|] == Write(Raw + Dsl, code + ".double")
    ensures SetDsl(mappings, Single, code)[|Set(mappings, Single, code, "")|] == Write(Raw + Dsl, code + ".single-short")
    ensures SetDsl(mappings, Long, code)[|Set(mappings, Long, code, "")|] == Write(Raw + Dsl, code + ".long")
  {
    assert Double[1..] == "double" && Single[1..] == "single-short" && Long[1..] == "long";
  }

  /** Number of writes to `channel` in a log. */
  function CountTo(log: seq<Write>, channel: string): (n: nat)
    ensures n <= |log|
    ensures n == 0 <==> forall i :: 0 <= i < |log| ==> log[i].channel != channel
  {
    if log == [] then 0
    else CountTo(log[..|log| - 1], channel) + (if log[|log| - 1].channel == channel then 1 else 0)
  }

  lemma {:induction false} CountToAppend(a: seq<Write>, b: seq<Write>, channel: string)
    ensures CountTo(a + b, channel) == CountTo(a, channel) + CountTo(b, channel)
    decreases |b|
  {
    if b == [] {
      assert a + b == a;
    } else {
      assert (a + b)[..|a + b| - 1] == a + b[..|b| - 1];
      CountToAppend(a, b[..|b| - 1], channel);
    }
  }

  /** The writes of a `Set` on `name` reach the raw channel `Raw + other` only when `other == name`. */
  lemma SetChannels(mappings: map<string, string>, name: string, val: string, ext: string, other: string)
    ensures CountTo(Set(mappings, name, val, ext), Raw + other) == if other == name then 1 else 0
  {
    var w := Set(mappings, name, val, ext);
    assert Raw + other == Raw + name <==> other == name by {
      if Raw + other == Raw + name {
        assert other == (Raw + other)[3..] && name == (Raw + name)[3..];
      }
    }
    if |w| == 2 {
      assert (Raw + other)[0] != (Key + name)[0];
      assert w[..1] == [w[0]];
    }
  }

  /** The writes of a `SetDsl` on `name` reach a raw channel other than dsl only when it is `Raw + name`. */
  lemma SetDslChannels(mappings: map<string, string>, name: string, val: string, other: string)
    requires |name| >= 1 && other != Dsl
    ensures CountTo(SetDsl(mappings, name, val), Raw + other) == if other == name then 1 else 0
  {
    var kind := val + "." + name[1..];
    CountToAppend(Set(mappings, name, val, ""), Set(mappings, Dsl, kind, ""), Raw + other);
    SetChannels(mappings, name, val, "", other);
    SetChannels(mappings, Dsl, kind, "", other);
  }
}
