/** The two places that read OPC_CONTROL fields out of a parameter object: the planner, to predict a length, and
    the sender, to build the packet. Each is written out from its own lines and proved against `Planner`. */
module ControlExtraction {
  import opened Basics
  import opened JsonValues
  import opened SceneActions
  import opened Optimizer
  import opened Planner
  import ControlBody
  import Packets

  const INT_KEYS: seq<string> := ["mode", "speed", "intensity", "custom1", "custom2", "custom3", "palette"]
  const CHECK_KEYS: seq<string> := ["check1", "check2", "check3"]
  const COLOR_KEYS: seq<string> := ["color1", "color2", "color3"]

  /** `key in params and params[key] is not None`. */
  predicate Given(params: Object, k: string) {
    k in params && params[k] != JNull
  }

  /** `tuple(int(c) & 0xFF for c in items)`, if no entry raises. */
  function MaskedTuple(items: seq<Json>): Option<seq<byte>> {
    if items == [] then Some([])
    else
      var head, tail := ToInt(items[0]), MaskedTuple(items[1..]);
      if head.Err? || tail.None? then None else Some([LowByte(head.value)] + tail.value)
  }

  lemma {:induction false} MaskedTupleAt(items: seq<Json>)
    ensures MaskedTuple(items).Some? <==> forall i :: 0 <= i < |items| ==> ToInt(items[i]).Ok?
    ensures MaskedTuple(items).Some? ==>
              && |MaskedTuple(items).value| == |items|
              && forall i :: 0 <= i < |items| ==> MaskedTuple(items).value[i] == LowByte(ToInt(items[i]).value)
  {
    if items != [] {
      MaskedTupleAt(items[1..]);
    }
  }

  /** The tuple a colour parameter gives; `None` is an exception. */
  function ColorTuple(j: Json): Option<seq<byte>> {
    if AsList(j).Err? then None else MaskedTuple(AsList(j).value)
  }

  // ---- what the keyword arguments hold --------------------------------------------------

  ghost predicate IntsRead(params: Object, ints: map<string, byte>) {
    forall k :: k in ints ==> Given(params, k) && ToInt(params[k]).Ok? && ints[k] == LowByte(ToInt(params[k]).value)
  }

  ghost predicate ChecksRead(params: Object, checks: map<string, bool>) {
    forall k :: k in checks ==> Given(params, k) && checks[k] == Truthy(params[k])
  }

  ghost predicate ColorsRead(params: Object, colors: map<string, seq<byte>>) {
    forall k :: k in colors ==> Given(params, k) && ColorTuple(params[k]) == Some(colors[k])
  }

  /** The first `n` keys that are given were read. */
  ghost predicate ReadUpTo<T>(params: Object, keys: seq<string>, n: nat, read: map<string, T>) {
    forall j :: 0 <= j < n && j < |keys| && Given(params, keys[j]) ==> keys[j] in read
  }

  ghost predicate AllRead(params: Object, ints: map<string, byte>, checks: map<string, bool>, colors: map<string, seq<byte>>) {
    && IntsRead(params, ints) && ChecksRead(params, checks) && ColorsRead(params, colors)
    && (Given(params, "brightness") ==> "brightness" in ints)
    && ReadUpTo(params, INT_KEYS, |INT_KEYS|, ints)
    && ReadUpTo(params, CHECK_KEYS, |CHECK_KEYS|, checks)
    && ReadUpTo(params, COLOR_KEYS, |COLOR_KEYS|, colors)
  }

  function Arg<T>(m: map<string, T>, k: string): Option<T> {
    if k in m then Some(m[k]) else None
  }

  /** `_rgb_bytes` unpacks three values and raises on any other number. */
  predicate Unpacks(colors: map<string, seq<byte>>, k: string) {
    k in colors ==> |colors[k]| == 3
  }

  predicate ColorsUnpack(colors: map<string, seq<byte>>) {
    Unpacks(colors, "color1") && Unpacks(colors, "color2") && Unpacks(colors, "color3")
  }

  function ColorArg(colors: map<string, seq<byte>>, k: string): Option<ControlBody.Rgb>
    requires Unpacks(colors, k)
  {
    if k in colors then Some(ControlBody.Rgb(colors[k][0], colors[k][1], colors[k][2])) else None
  }

  function IntArg(ints: map<string, byte>, k: string): Option<int> {
    if k in ints then Some(ints[k]) else None
  }

  /** The named parameters of `build_control_body` that a call with these keyword arguments binds. */
  function Bound(ints: map<string, byte>, checks: map<string, bool>, colors: map<string, seq<byte>>): ControlBody.Fields
    requires ColorsUnpack(colors)
  {
    ControlBody.Fields(IntArg(ints, "brightness"), IntArg(ints, "mode"), IntArg(ints, "speed"), IntArg(ints, "intensity"),
                       IntArg(ints, "custom1"), IntArg(ints, "custom2"), IntArg(ints, "custom3"),
                       Arg(checks, "check1"), Arg(checks, "check2"), Arg(checks, "check3"), IntArg(ints, "palette"),
                       ColorArg(colors, "color1"), ColorArg(colors, "color2"), ColorArg(colors, "color3"))
  }

  // ---- against the specification ------------------------------------------------------------

  lemma {:induction false} IntArgRead(params: Object, ints: map<string, byte>, k: string)
    requires IntsRead(params, ints) && (Given(params, k) ==> k in ints)
    ensures IntField(params, k).Ok? && IntArg(ints, k) == ControlBody.MaskedInt(IntField(params, k).value)
  {
  }

  lemma {:induction false} CheckArgRead(params: Object, checks: map<string, bool>, k: string)
    requires ChecksRead(params, checks) && (Given(params, k) ==> k in checks)
    ensures Arg(checks, k) == CheckField(params, k)
  {
  }

  lemma {:induction false} ColorFieldTuple(params: Object, k: string)
    requires Given(params, k)
    ensures ColorField(params, k).Ok? <==> ColorTuple(params[k]).Some? && |ColorTuple(params[k]).value| == 3
    ensures ColorField(params, k).Ok? ==>
              var c, t := ColorField(params, k).value, ColorTuple(params[k]).value;
              ControlBody.MaskedRgb(c) == Some(ControlBody.Rgb(t[0], t[1], t[2]))
  {
    if AsList(params[k]).Ok? {
      MaskedTupleAt(AsList(params[k]).value);
    }
  }

  lemma {:induction false} ColorArgRead(params: Object, colors: map<string, seq<byte>>, k: string)
    requires ColorsRead(params, colors) && (Given(params, k) ==> k in colors)
    ensures ColorField(params, k).Ok? <==> Unpacks(colors, k)
    ensures Unpacks(colors, k) ==> ColorArg(colors, k) == ControlBody.MaskedRgb(ColorField(params, k).value)
  {
    if Given(params, k) {
      ColorFieldTuple(params, k);
    }
  }

  lemma {:induction false} IntsAgree(params: Object, ints: map<string, byte>)
    requires IntsRead(params, ints) && (Given(params, "brightness") ==> "brightness" in ints)
    requires ReadUpTo(params, INT_KEYS, |INT_KEYS|, ints)
    ensures forall k :: k in INT_KEYS || k == "brightness" ==>
              IntField(params, k).Ok? && IntArg(ints, k) == ControlBody.MaskedInt(IntField(params, k).value)
  {
    forall k | k in INT_KEYS || k == "brightness"
      ensures IntField(params, k).Ok? && IntArg(ints, k) == ControlBody.MaskedInt(IntField(params, k).value)
    {
      IntArgRead(params, ints, k);
    }
  }

  lemma {:induction false} KeysListed()
    ensures "mode" in INT_KEYS && "speed" in INT_KEYS && "intensity" in INT_KEYS && "custom1" in INT_KEYS
    ensures "custom2" in INT_KEYS && "custom3" in INT_KEYS && "palette" in INT_KEYS
    ensures "check1" in CHECK_KEYS && "check2" in CHECK_KEYS && "check3" in CHECK_KEYS
    ensures "color1" in COLOR_KEYS && "color2" in COLOR_KEYS && "color3" in COLOR_KEYS
  {
    assert INT_KEYS[0] == "mode" && INT_KEYS[1] == "speed" && INT_KEYS[2] == "intensity" && INT_KEYS[3] == "custom1";
    assert INT_KEYS[4] == "custom2" && INT_KEYS[5] == "custom3" && INT_KEYS[6] == "palette";
    assert CHECK_KEYS[0] == "check1" && CHECK_KEYS[1] == "check2" && CHECK_KEYS[2] == "check3";
    assert COLOR_KEYS[0] == "color1" && COLOR_KEYS[1] == "color2" && COLOR_KEYS[2] == "color3";
  }

  /** What was read binds the specified fields, masked, and a tuple of the wrong length raises exactly when the
      specification does. */
  lemma {:induction false} BoundAgrees(params: Object, ints: map<string, byte>, checks: map<string, bool>, colors: map<string, seq<byte>>)
    requires AllRead(params, ints, checks, colors)
    ensures ControlFields(params).Ok? <==> ColorsUnpack(colors)
    ensures ColorsUnpack(colors) ==> Bound(ints, checks, colors) == ControlBody.LowFields(ControlFields(params).value)
  {
    KeysListed();
    IntsAgree(params, ints);
    CheckArgRead(params, checks, CHECK_KEYS[0]);
    CheckArgRead(params, checks, CHECK_KEYS[1]);
    CheckArgRead(params, checks, CHECK_KEYS[2]);
    ColorArgRead(params, colors, COLOR_KEYS[0]);
    ColorArgRead(params, colors, COLOR_KEYS[1]);
    ColorArgRead(params, colors, COLOR_KEYS[2]);
  }

  /** A number that does not convert makes the specification fail too. */
  lemma {:induction false} IntRaises(params: Object, k: string)
    requires Given(params, k) && ToInt(params[k]).Err? && (k == "brightness" || k in INT_KEYS)
    ensures ControlFields(params).Err?
  {
    assert IntField(params, k).Err?;
  }

  lemma {:induction false} ColorRaises(params: Object, k: string)
    requires Given(params, k) && ColorTuple(params[k]).None? && k in COLOR_KEYS
    ensures ControlFields(params).Err?
  {
    ColorFieldTuple(params, k);
  }

  method TupleOf(items: seq<Json>) returns (t: Option<seq<byte>>)
    ensures t == MaskedTuple(items)
  {
    MaskedTupleAt(items);
    var bytes: seq<byte> := [];
    for i := 0 to |items|
      invariant |bytes| == i && forall j :: 0 <= j < i ==> ToInt(items[j]).Ok? && bytes[j] == LowByte(ToInt(items[j]).value)
    {
      var v := ToInt(items[i]);
      if v.Err? {
        return None;
      }
      bytes := bytes + [LowByte(v.value)];
    }
    assert bytes == MaskedTuple(items).value;
    t := Some(bytes);
  }

  // ---- the sizer --------------------------------------------------------------------------------

  /** `_control_body_len`: reads every field, builds a body for group 0 without flags, and measures it. `None` is
      an exception. */
  method MeasureControlBody(params: Object) returns (n: Option<nat>)
    ensures n == if ControlBodyLen(params).Ok? then Some(ControlBodyLen(params).value) else None
  {
    var ints: map<string, byte>, checks: map<string, bool>, colors: map<string, seq<byte>> := map[], map[], map[];
    if "brightness" in params && params["brightness"] != JNull {
      var v := ToInt(params["brightness"]);
      if v.Err? {
        IntRaises(params, "brightness");
        return None;
      }
      ints := ints["brightness" := LowByte(v.value)];
    }
    for i := 0 to |INT_KEYS|
      invariant IntsRead(params, ints) && (Given(params, "brightness") ==> "brightness" in ints)
      invariant ReadUpTo(params, INT_KEYS, i, ints)
    {
      var key := INT_KEYS[i];
      if key in params && params[key] != JNull {
        var v := ToInt(params[key]);
        if v.Err? {
          IntRaises(params, key);
          return None;
        }
        ints := ints[key := LowByte(v.value)];
      }
    }
    for i := 0 to |CHECK_KEYS|
      invariant ChecksRead(params, checks) && ReadUpTo(params, CHECK_KEYS, i, checks)
    {
      var key := CHECK_KEYS[i];
      if key in params && params[key] != JNull {
        checks := checks[key := Truthy(params[key])];
      }
    }
    for i := 0 to |COLOR_KEYS|
      invariant ColorsRead(params, colors) && ReadUpTo(params, COLOR_KEYS, i, colors)
    {
      var key := COLOR_KEYS[i];
      if key in params && params[key] != JNull {
        var t := None;
        if AsList(params[key]).Ok? {
          t := TupleOf(AsList(params[key]).value);
        }
        if t.None? {
          ColorRaises(params, key);
          return None;
        }
        colors := colors[key := t.value];
      }
    }
    BoundAgrees(params, ints, checks, colors);
    if !ColorsUnpack(colors) {
      return None;
    }
    var body := ControlBody.BuildControlBody(0, 0, Bound(ints, checks, colors));
    ControlBody.LowFieldsSameBody(0, 0, ControlFields(params).value);
    n := Some(|body|);
  }

  // ---- the sender --------------------------------------------------------------------------------

  /** The sender's keyword arguments; it has already read the brightness for the flag byte. */
  method SenderArguments(params: Object, brightness: Json, brightnessVal: byte)
      returns (raised: bool, ints: map<string, byte>, checks: map<string, bool>, colors: map<string, seq<byte>>)
    requires brightness == Get(params, "brightness")
    requires brightness != JNull ==> ToInt(brightness).Ok? && brightnessVal == LowByte(ToInt(brightness).value)
    ensures if raised then ControlFields(params).Err? else AllRead(params, ints, checks, colors)
  {
    raised, ints, checks, colors := false, map[], map[], map[];
    if brightness != JNull {
      ints := ints["brightness" := brightnessVal];
    }
    for i := 0 to |INT_KEYS|
      invariant IntsRead(params, ints) && (Given(params, "brightness") ==> "brightness" in ints)
      invariant ReadUpTo(params, INT_KEYS, i, ints)
    {
      var key := INT_KEYS[i];
      if key in params && params[key] != JNull {
        var v := ToInt(params[key]);
        if v.Err? {
          IntRaises(params, key);
          return true, ints, checks, colors;
        }
        ints := ints[key := LowByte(v.value)];
      }
    }
    for i := 0 to |CHECK_KEYS|
      invariant ChecksRead(params, checks) && ReadUpTo(params, CHECK_KEYS, i, checks)
    {
      var key := CHECK_KEYS[i];
      if key in params && params[key] != JNull {
        checks := checks[key := Truthy(params[key])];
      }
    }
    for i := 0 to |COLOR_KEYS|
      invariant ColorsRead(params, colors) && ReadUpTo(params, COLOR_KEYS, i, colors)
    {
      var key := COLOR_KEYS[i];
      if key in params && params[key] != JNull {
        var t := None;
        if AsList(params[key]).Ok? {
          t := TupleOf(AsList(params[key]).value);
        }
        if t.None? {
          ColorRaises(params, key);
          return true, ints, checks, colors;
        }
        colors := colors[key := t.value];
      }
    }
  }

  /** `send_wled_control` with a transport: the flag byte from the brightness and the user flags, the same fields
      read again, and one packet to the group or device. `None` is an exception. */
  method SendWledControl(d: Destination, params: Object) returns (p: Option<Packet>)
    ensures p == ControlPacket(d, params)
  {
    var brightness := Get(params, "brightness");
    var brightnessVal: byte := 0;
    if brightness != JNull {
      var v := ToInt(brightness);
      if v.Err? {
        IntRaises(params, "brightness");
        return None;
      }
      brightnessVal := LowByte(v.value);
    }
    var flags := Packets.BuildFlagsByte(Packets.Flags(
      brightnessVal > 0, true, Truthy(Get(params, "arm_on_sync")), Truthy(Get(params, "force_tt0")),
      Truthy(Get(params, "force_reapply")), Truthy(Get(params, "offset_mode"))));
    var raised, ints, checks, colors := SenderArguments(params, brightness, brightnessVal);
    if raised {
      return None;
    }
    BoundAgrees(params, ints, checks, colors);
    if !ColorsUnpack(colors) {
      return None;
    }
    var receiver, group := ALL_RECEIVERS, BodyGroupOf(d);
    if d.ToDevice? {
      receiver := d.dev.last3;
    }
    var body := ControlBody.BuildControlBody(group, flags, Bound(ints, checks, colors));
    ControlBody.LowFieldsSameBody(group, flags, ControlFields(params).value);
    p := Some(Packet(receiver, OPC_CONTROL, body));
  }
}
