/** The LLM-backed learner (learner/llm_learner.py): the model's reply is
    cleaned of Markdown fences, parsed, and replaced by a "monitor" action
    when nothing usable came back. The call to the model and the prompt
    are not part of this model: the reply is a parameter. */
module LlmLearner {
  import opened Wrappers
  import opened Text
  import opened Json

  const Fence: string := "```"
  const JsonFence: string := "```json"

  /** `clean_json(text)`. */
  function CleanJson(text: string): (r: string)
    ensures text == [] ==> r == []
  {
    if text == [] then text
    else
      var cleaned := Strip(text);
      var unfenced := if StartsWith(cleaned, Fence) then Strip(Replace(Replace(cleaned, JsonFence, ""), Fence, "")) else cleaned;
      Strip(Replace(Replace(unfenced, Fence, ""), "`", ""))
  }

  /** Every character of a stripped string comes from the original. */
  lemma StripKeeps(s: string, c: char)
    requires c !in s
    ensures c !in Strip(s)
  {
    var l := LStrip(s);
    forall j | 0 <= j < |l| ensures l[j] != c {
      assert l[j] == s[|s| - |l| + j];
    }
    var r := RStrip(l);
    forall j | 0 <= j < |r| ensures r[j] != c {
      assert r[j] == l[j];
    }
  }

  /** The cleaned text has no backtick and no whitespace at either end. */
  lemma CleanJsonShape(text: string)
    ensures '`' !in CleanJson(text)
    ensures var r := CleanJson(text); r == [] || (!IsSpace(r[0]) && !IsSpace(r[|r| - 1]))
  {
    if text != [] {
      var cleaned := Strip(text);
      var unfenced := if StartsWith(cleaned, Fence) then Strip(Replace(Replace(cleaned, JsonFence, ""), Fence, "")) else cleaned;
      var noTicks := Replace(Replace(unfenced, Fence, ""), "`", "");
      ReplaceRemovesChar(Replace(unfenced, Fence, ""), '`');
      StripKeeps(noTicks, '`');
    }
  }

  /** Cleaning is idempotent: a cleaned text comes back unchanged. */
  lemma CleanJsonIdempotent(text: string)
    ensures CleanJson(CleanJson(text)) == CleanJson(text)
  {
    var r := CleanJson(text);
    CleanJsonShape(text);
    if r != [] {
      StripStripped(r);
      assert r[0] in r;
      assert !StartsWith(r, Fence) by {
        if |Fence| <= |r| { assert r[..|Fence|][0] == r[0]; }
      }
      ReplaceAbsent(r, Fence, "");
      ReplaceAbsent(r, "`", "");
    }
  }

  /** Removing the fences from a fenced block leaves the body between
      newlines. */
  lemma UnfenceBlock(body: string)
    requires '`' !in body
    ensures var text := JsonFence + "\n" + body + "\n" + Fence;
            Replace(Replace(text, JsonFence, ""), Fence, "") == "\n" + body + "\n"
  {
    var inner := "\n" + body + "\n";
    assert '`' !in inner;
    assert JsonFence + "\n" + body + "\n" + Fence == JsonFence + (inner + Fence);
    ReplaceLeading(JsonFence, inner + Fence, "");
    ReplaceAbsentPrefix(inner, Fence, JsonFence, "");
    assert Replace(Fence, JsonFence, "") == Fence;
    assert [] + Replace(inner + Fence, JsonFence, "") == inner + Fence;
    ReplaceAbsentPrefix(inner, Fence, Fence, "");
    ReplaceLeading(Fence, [], "");
    assert Fence + [] == Fence;
  }

  /** Stripping removes the newlines around a body that has no whitespace
      at either end. */
  lemma StripNewlines(body: string)
    requires body == [] || (!IsSpace(body[0]) && !IsSpace(body[|body| - 1]))
    ensures Strip("\n" + body + "\n") == body
  {
    assert "\n" + body + "\n" == ['\n'] + (body + ['\n']);
    LStripSpaceHead('\n', body + ['\n']);
    if body == [] {
      LStripSpaceHead('\n', []);
      assert LStrip(body + ['\n']) == [];
    } else {
      assert (body + ['\n'])[0] == body[0];
      assert LStrip(body + ['\n']) == body + ['\n'];
      RStripSpaceTail(body, '\n');
    }
  }

  /** On a stripped text that opens with a fence, cleaning removes the
      fences, strips, then removes any backtick left and strips again. */
  lemma CleanFenced(text: string)
    requires text != [] && !IsSpace(text[0]) && !IsSpace(text[|text| - 1])
    requires StartsWith(text, Fence)
    ensures CleanJson(text) == Strip(Replace(Replace(Strip(Replace(Replace(text, JsonFence, ""), Fence, "")), Fence, ""), "`", ""))
  {
    StripStripped(text);
  }

  /** A reply fenced as a Markdown JSON block, whose body has no backtick
      and no whitespace at either end, cleans to exactly that body. */
  lemma FencedBlockYieldsBody(body: string)
    requires '`' !in body
    requires body == [] || (!IsSpace(body[0]) && !IsSpace(body[|body| - 1]))
    ensures CleanJson(JsonFence + "\n" + body + "\n" + Fence) == body
  {
    var text := JsonFence + "\n" + body + "\n" + Fence;
    assert text[0] == '`' && text[|text| - 1] == '`';
    assert text[..|Fence|] == Fence;
    CleanFenced(text);
    var unfenced := Replace(Replace(text, JsonFence, ""), Fence, "");
    assert unfenced == "\n" + body + "\n" by { UnfenceBlock(body); }
    assert Strip(unfenced) == body by { StripNewlines(body); }
    assert Replace(body, Fence, "") == body by { ReplaceAbsent(body, Fence, ""); }
    assert Replace(body, "`", "") == body by { ReplaceAbsent(body, "`", ""); }
    assert Strip(body) == body by { StripStripped(body); }
    assert CleanJson(text) == Strip(Replace(Replace(Strip(unfenced), Fence, ""), "`", ""));
  }

  /** What `ask_gemini` returns: None when the call fails (`reply` is
      None) or the cleaned reply is not JSON (`parse` answers None). */
  function AskDecision(reply: Option<string>, parse: string -> Option<Value>): Option<Value> {
    match reply
    case None => None
    case Some(raw) => parse(CleanJson(Strip(raw)))
  }

  const MonitorFallback: Value := Obj([("name", Str("monitor"))])

  /** `if action is None: action = {"name": "monitor"}`. A reply that
      parses to JSON `null` is Python's None as well. */
  function FinalAction(decision: Option<Value>): (r: Value)
    ensures decision.None? || decision == Some(Null) ==> r == MonitorFallback
    ensures decision.Some? && decision != Some(Null) ==> r == decision.value
    ensures r != Null
  {
    match decision
    case None => MonitorFallback
    case Some(v) => if v == Null then MonitorFallback else v
  }

  /** One pass of `main`'s loop: a context that is not JSON is skipped,
      anything else yields the action published on "actions". */
  function OnDecisionRequest(context: Option<Value>, reply: Option<string>, parse: string -> Option<Value>): (r: Option<Value>)
    ensures r.None? <==> context.None?
    ensures r.Some? ==> r.value != Null
    ensures context.Some? && reply.None? ==> r == Some(MonitorFallback)
  {
    match context
    case None => None
    case Some(_) => Some(FinalAction(AskDecision(reply, parse)))
  }
}
