/** The generation configuration of the image server (`FalAILora`, `Config`) and the request map its
    `to_dict` methods build for the image model. */
module FalPayload {
  import opened Wrappers
  import opened PyValues

  /** A LoRA adapter: where its weights live, how strongly to apply them, and the word that triggers it.
      The defaults are those of the dataclass. */
  datatype Lora = Lora(path: string, scale: real := 1.0, triggerWord: string := "")

  /** A generation request before serialisation, with the dataclass defaults. */
  datatype Config = Config(
    prompt: string,
    loras: seq<Lora>,
    syncMode: bool := true,
    imageSize: string := "landscape_4_3",
    numInferenceSteps: int := 28,
    guidanceScale: real := 3.5,
    numImages: int := 1,
    enableSafetyChecker: bool := true,
    outputFormat: string := "png")

  /** The dataclass defaults: scale 1.0 and no trigger word for a LoRA; synchronous mode, a 4:3 landscape
      image, 28 inference steps, guidance 3.5, one image, the safety checker on and PNG output for a
      configuration. */
  lemma Defaults(path: string, prompt: string, loras: seq<Lora>)
    ensures Lora(path).scale == 1.0 && Lora(path).triggerWord == ""
    ensures Config(prompt, loras) == Config(prompt, loras, true, "landscape_4_3", 28, 3.5, 1, true, "png")
  {
  }

  function LoraKeys(): set<string>
  {
    {"path", "scale"}
  }

  function ConfigKeys(): set<string>
  {
    {"prompt", "loras", "sync_mode", "image_size", "num_inference_steps", "guidance_scale",
     "num_images", "enable_safety_checker", "output_format"}
  }

  /** `FalAILora.to_dict`: the path and the scale; the trigger word stays local. */
  function LoraToDict(l: Lora): (d: map<string, Value>)
    ensures d.Keys == LoraKeys()
    ensures "trigger_word" !in d
  {
    map["path" := Str(l.path), "scale" := Float(l.scale)]
  }

  /** The serialised LoRA list, one map per adapter, in the configured order. */
  function LorasToList(ls: seq<Lora>): (vs: seq<Value>)
    ensures |vs| == |ls|
    ensures forall i :: 0 <= i < |ls| ==> vs[i] == Dict(LoraToDict(ls[i]))
  {
    seq(|ls|, i requires 0 <= i < |ls| => Dict(LoraToDict(ls[i])))
  }

  /** `Config.to_dict`: the fixed nine-key request map. */
  function ConfigToDict(c: Config): (d: map<string, Value>)
    ensures d.Keys == ConfigKeys()
    ensures d["loras"] == List(LorasToList(c.loras))
  {
    map[
      "prompt" := Str(c.prompt),
      "loras" := List(LorasToList(c.loras)),
      "sync_mode" := Bool(c.syncMode),
      "image_size" := Str(c.imageSize),
      "num_inference_steps" := Int(c.numInferenceSteps),
      "guidance_scale" := Float(c.guidanceScale),
      "num_images" := Int(c.numImages),
      "enable_safety_checker" := Bool(c.enableSafetyChecker),
      "output_format" := Str(c.outputFormat)
    ]
  }

  /** The configuration with every trigger word cleared: all that the request map can carry. */
  function WithoutTriggers(c: Config): Config
  {
    c.(loras := LorasWithoutTriggers(c.loras))
  }

  function LorasWithoutTriggers(ls: seq<Lora>): (r: seq<Lora>)
    ensures |r| == |ls|
    ensures forall i :: 0 <= i < |ls| ==> r[i] == ls[i].(triggerWord := "")
  {
    seq(|ls|, i requires 0 <= i < |ls| => ls[i].(triggerWord := ""))
  }

  /** Reading a request map back: the inverse of `LoraToDict` on well-formed maps. */
  function ParseLora(v: Value): Option<Lora>
  {
    if v.Dict? && v.fields.Keys == LoraKeys() && v.fields["path"].Str? && v.fields["scale"].Float?
    then Some(Lora(v.fields["path"].s, v.fields["scale"].f))
    else None
  }

  function ParseLoras(vs: seq<Value>): Option<seq<Lora>>
    decreases |vs|
  {
    if |vs| == 0 then Some([])
    else
      match (ParseLora(vs[0]), ParseLoras(vs[1..]))
      case (Some(l), Some(ls)) => Some([l] + ls)
      case _ => None
  }

  /** Reading a request map back: the inverse of `ConfigToDict` on well-formed maps. */
  function ParseConfig(v: Value): Option<Config>
  {
    if !v.Dict? || v.fields.Keys != ConfigKeys() then None
    else
      var m := v.fields;
      if m["prompt"].Str? && m["loras"].List? && m["sync_mode"].Bool? && m["image_size"].Str?
         && m["num_inference_steps"].Int? && m["guidance_scale"].Float? && m["num_images"].Int?
         && m["enable_safety_checker"].Bool? && m["output_format"].Str?
      then
        match ParseLoras(m["loras"].items)
        case None => None
        case Some(ls) =>
          Some(Config(m["prompt"].s, ls, m["sync_mode"].b, m["image_size"].s, m["num_inference_steps"].i,
                      m["guidance_scale"].f, m["num_images"].i, m["enable_safety_checker"].b, m["output_format"].s))
      else None
  }

  lemma {:induction false} ParseLorasOfList(ls: seq<Lora>)
    ensures ParseLoras(LorasToList(ls)) == Some(LorasWithoutTriggers(ls))
    decreases |ls|
  {
    if |ls| > 0 {
      ParseLorasOfList(ls[1..]);
      assert LorasToList(ls)[1..] == LorasToList(ls[1..]);
      assert LorasWithoutTriggers(ls) == [ls[0].(triggerWord := "")] + LorasWithoutTriggers(ls[1..]);
    }
  }

  lemma {:induction false} ListOfParseLoras(vs: seq<Value>, ls: seq<Lora>)
    requires ParseLoras(vs) == Some(ls)
    ensures LorasToList(ls) == vs
    ensures LorasWithoutTriggers(ls) == ls
    decreases |vs|
  {
    if |vs| > 0 {
      var l, rest := ParseLora(vs[0]).value, ParseLoras(vs[1..]).value;
      ListOfParseLoras(vs[1..], rest);
      ParseLoraInverse(vs[0]);
      assert ls == [l] + rest;
      assert LorasToList(ls) == [vs[0]] + vs[1..];
    }
  }

  /** One well-formed LoRA map is the serialisation of the LoRA read from it, which has no trigger word. */
  lemma ParseLoraInverse(v: Value)
    requires ParseLora(v).Some?
    ensures Dict(LoraToDict(ParseLora(v).value)) == v
    ensures ParseLora(v).value.triggerWord == ""
  {
    assert LoraToDict(ParseLora(v).value).Keys == v.fields.Keys;
  }

  /** The request map carries the whole configuration except the trigger words. */
  lemma ConfigRoundTrip(c: Config)
    ensures ParseConfig(Dict(ConfigToDict(c))) == Some(WithoutTriggers(c))
  {
    ParseLorasOfList(c.loras);
  }

  /** Every well-formed request map is the serialisation of exactly the configuration read from it. */
  lemma PayloadRoundTrip(v: Value, c: Config)
    requires ParseConfig(v) == Some(c)
    ensures Dict(ConfigToDict(c)) == v
    ensures WithoutTriggers(c) == c
  {
    ListOfParseLoras(v.fields["loras"].items, c.loras);
    assert ConfigToDict(c).Keys == v.fields.Keys;
  }

  /** Configurations that differ only in trigger words send the same request. */
  lemma TriggerWordsNotSent(c1: Config, c2: Config)
    requires WithoutTriggers(c1) == WithoutTriggers(c2)
    ensures ConfigToDict(c1) == ConfigToDict(c2)
  {
    ConfigRoundTrip(c1);
    ConfigRoundTrip(c2);
    PayloadRoundTrip(Dict(ConfigToDict(c1)), WithoutTriggers(c1));
    PayloadRoundTrip(Dict(ConfigToDict(c2)), WithoutTriggers(c2));
  }
}
