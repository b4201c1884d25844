/**
 * The light handlers of go/lights.go over the package-level `lights` slice,
 * with the serial-port branch (taken only when `LIVE` is set, which it is
 * not) and the HTTP writing left out. The path parameters come in as
 * strings; the reply is a value.
 */
module Lights {
  import opened Wrappers
  import opened Strconv

  datatype Light = Light(id: int, description: string, turnOn: bool)

  /** `unicode.ToUpper` on ASCII letters; every other character is kept. */
  function UpperChar(c: char): char {
    if 'a' <= c <= 'z' then (c as int - 32) as char else c
  }

  /** `strings.ToUpper`, character by character. */
  function ToUpper(s: string): (r: string)
    ensures |r| == |s|
    ensures forall i :: 0 <= i < |s| ==> r[i] == UpperChar(s[i])
  {
    if s == [] then [] else [UpperChar(s[0])] + ToUpper(s[1..])
  }

  /** The state parameter is case-folded: exactly the four spellings of "on" switch a light on. */
  lemma UpperIsOn(s: string)
    ensures ToUpper(s) == "ON" <==> |s| == 2 && (s[0] == 'o' || s[0] == 'O') && (s[1] == 'n' || s[1] == 'N')
  {
    if ToUpper(s) == "ON" {
      assert UpperChar(s[0]) == 'O' && UpperChar(s[1]) == 'N';
    }
    if |s| == 2 && (s[0] == 'o' || s[0] == 'O') && (s[1] == 'n' || s[1] == 'N') {
      assert ToUpper(s) == [UpperChar(s[0]), UpperChar(s[1])];
    }
  }

  /** Only 'o' and 'O' upper-case to 'O', and likewise for 'F'. */
  lemma UpperCharIs(c: char)
    ensures UpperChar(c) == 'O' <==> c == 'o' || c == 'O'
    ensures UpperChar(c) == 'F' <==> c == 'f' || c == 'F'
  {
  }

  /** Likewise, exactly the eight spellings of "off" switch it off. */
  lemma UpperIsOff(s: string)
    ensures ToUpper(s) == "OFF" <==>
      |s| == 3 && (s[0] == 'o' || s[0] == 'O') && (s[1] == 'f' || s[1] == 'F') && (s[2] == 'f' || s[2] == 'F')
  {
    if |s| == 3 {
      var u := ToUpper(s);
      assert u == [UpperChar(s[0]), UpperChar(s[1]), UpperChar(s[2])];
      UpperCharIs(s[0]);
      UpperCharIs(s[1]);
      UpperCharIs(s[2]);
      assert u == "OFF" <==> u[0] == 'O' && u[1] == 'F' && u[2] == 'F';
    }
  }

  /** The replies of `SetLightState`; `IndexPanic` is the runtime panic of indexing `lights[id-1]` below zero. */
  datatype Toggle = Toggled(id: int, state: string) | BadLightId | InvalidCommand(state: string) | IndexPanic

  /**
   * How `SetLightState` answers, from the number of lights and the two path
   * parameters: an id that is not a number or exceeds the count is refused
   * first; then a state other than ON or OFF (after upper-casing) is
   * refused; there is no lower bound on the id, so an id below 1 with a
   * valid state reaches the index and panics.
   */
  function ToggleReply(count: nat, lightID: string, state: string): Toggle {
    var up := ToUpper(state);
    var id := ParseInt(lightID);
    if id.None? || id.value > count then BadLightId
    else if up != "ON" && up != "OFF" then InvalidCommand(up)
    else if id.value < 1 then IndexPanic
    else Toggled(id.value, up)
  }

  /** `SetLightState`: switches exactly the `TurnOn` of light `id`, at index `id - 1`, and nothing else. */
  method SetLightState(lights: array<Light>, lightID: string, state: string) returns (reply: Toggle)
    modifies lights
    ensures reply == ToggleReply(lights.Length, lightID, state)
    ensures reply.Toggled? ==>
      && 1 <= reply.id <= lights.Length
      && lights[..] == old(lights[..])[reply.id - 1 := old(lights[reply.id - 1]).(turnOn := reply.state == "ON")]
    ensures !reply.Toggled? ==> lights[..] == old(lights[..])
  {
    var up := ToUpper(state);
    var id := ParseInt(lightID);
    if id.None? || id.value > lights.Length {
      return BadLightId;
    }
    var n := id.value;
    if up == "ON" || up == "OFF" {
      if n < 1 {
        return IndexPanic;
      }
      lights[n - 1] := lights[n - 1].(turnOn := up == "ON");
      return Toggled(n, up);
    }
    reply := InvalidCommand(up);
  }

  /** Which replies the handler gives for which requests, stated from the caller's side. */
  lemma ToggleReplyCases(count: nat, lightID: string, state: string)
    ensures var r := ToggleReply(count, lightID, state);
      && (r == BadLightId <==> ParseInt(lightID).None? || ParseInt(lightID).value > count)
      && (r.Toggled? <==>
            && ParseInt(lightID).Some? && 1 <= ParseInt(lightID).value <= count
            && (ToUpper(state) == "ON" || ToUpper(state) == "OFF"))
      && (r.Toggled? ==> r.id == ParseInt(lightID).value && (r.state == "ON" <==> ToUpper(state) == "ON"))
      && (r == IndexPanic <==>
            && ParseInt(lightID).Some? && ParseInt(lightID).value < 1
            && (ToUpper(state) == "ON" || ToUpper(state) == "OFF"))
  {
  }

  /** Light id 0 with state "on" gets past the guard and indexes `lights[-1]`. */
  lemma ZeroIdPanics(count: nat)
    ensures ToggleReply(count, "0", "on") == IndexPanic
  {
    assert ParseInt("0") == Some(0) by {
      assert DecimalValue("0") == DecimalValue("0"[..0]) * 10 + DigitValue('0');
    }
    assert ToUpper("on") == "ON";
  }

  /** The reply with the lower bound the guard evidently meant: an id below 1 is refused like one above the count. */
  function ToggleReplyChecked(count: nat, lightID: string, state: string): (r: Toggle)
    ensures r != IndexPanic
    ensures r.Toggled? ==> 1 <= r.id <= count
    ensures r == BadLightId <==> ParseInt(lightID).None? || !(1 <= ParseInt(lightID).value <= count)
  {
    var up := ToUpper(state);
    var id := ParseInt(lightID);
    if id.None? || id.value < 1 || id.value > count then BadLightId
    else if up != "ON" && up != "OFF" then InvalidCommand(up)
    else Toggled(id.value, up)
  }

  /** For every id that is not below 1 the checked reply is the handler's own; only ids below 1 are answered differently. */
  lemma CheckedAgreesFromOne(count: nat, lightID: string, state: string)
    ensures ParseInt(lightID).None? || ParseInt(lightID).value >= 1 ==>
      ToggleReplyChecked(count, lightID, state) == ToggleReply(count, lightID, state)
    ensures ParseInt(lightID).Some? && ParseInt(lightID).value < 1 ==>
      ToggleReplyChecked(count, lightID, state) == BadLightId
  {
  }

  /** The replies of `LightState`; the handler has no bounds check at all. */
  datatype Lookup = Found(light: Light) | IdNotANumber | LookupPanic

  /** `LightState`: the light at index `id - 1`; any id outside 1..len(lights) panics. */
  function LightState(lights: array<Light>, lightID: string): (r: Lookup)
    reads lights
    ensures r == IdNotANumber <==> ParseInt(lightID).None?
    ensures r.Found? <==> ParseInt(lightID).Some? && 1 <= ParseInt(lightID).value <= lights.Length
    ensures r.Found? ==> r.light == lights[ParseInt(lightID).value - 1]
  {
    match ParseInt(lightID)
    case None => IdNotANumber
    case Some(id) => if 1 <= id <= lights.Length then Found(lights[id - 1]) else LookupPanic
  }
}
