/** The default `data` of a newly added campaign block, by block type. */
module CampaignUtils {

  /** A JSON value inside a block's `data`. */
  datatype Value = Num(n: int) | Str(s: string) | Bool(b: bool) | List(items: seq<Value>)

  /** A block's `data` object. */
  type BlockData = map<string, Value>

  /** The block types that have defaults of their own. */
  const KNOWN_TYPES: set<string> :=
    {"wait", "send_email", "send_whatsapp", "conditional", "ab_test", "add_tag", "remove_tag", "lead_condition"}

  /** `getDefaultBlockData`. */
  function DefaultBlockData(kind: string): (d: BlockData)
    ensures kind !in KNOWN_TYPES ==> d == map[]
    ensures kind in KNOWN_TYPES ==> d != map[]
    ensures forall k :: k in d && d[k].List? ==> d[k].items == []
    ensures kind == "wait" ==> d == map["duration" := Num(1), "unit" := Str("hours")]
    ensures kind in {"conditional", "lead_condition"} ==>
      "truePath" in d && "falsePath" in d && d["truePath"] == List([]) && d["falsePath"] == List([])
    ensures kind == "ab_test" ==> "splitPercentage" in d && d["splitPercentage"] == Num(50)
    ensures kind in {"add_tag", "remove_tag"} ==> d == map["tagId" := Str("")]
  {
    match kind
    case "wait" =>
      var d := map["duration" := Num(1), "unit" := Str("hours")];
      assert "duration" in d;
      d
    case "send_email" =>
      var d := map["subject" := Str(""), "content" := Str(""),
                   "trackOpens" := Bool(true), "trackClicks" := Bool(true)];
      assert "subject" in d;
      d
    case "send_whatsapp" =>
      var d := map["templateId" := Str(""), "templateName" := Str("")];
      assert "templateId" in d;
      d
    case "conditional" =>
      var d := map["condition" := Str("email_opened"), "timeLimit" := Num(24), "timeLimitUnit" := Str("hours"),
                   "truePath" := List([]), "falsePath" := List([])];
      assert "condition" in d;
      d
    case "ab_test" =>
      var d := map["splitPercentage" := Num(50), "pathA" := List([]), "pathB" := List([])];
      assert "splitPercentage" in d;
      d
    case "add_tag" =>
      var d := map["tagId" := Str("")];
      assert "tagId" in d;
      d
    case "remove_tag" =>
      var d := map["tagId" := Str("")];
      assert "tagId" in d;
      d
    case "lead_condition" =>
      var d := map["condition" := Str("has_tags"), "tagIds" := List([]), "timeValue" := Num(1),
                   "timeUnit" := Str("days"), "truePath" := List([]), "falsePath" := List([])];
      assert "condition" in d;
      d
    case _ => map[]
  }
}
