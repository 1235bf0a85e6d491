/**
 * The relevance oracle client (ai.py, and its copy in telegram_monitor_simple.py).
 * The language-model call itself is not modelled: its reply is an input, `None`
 * standing for an exception raised while asking.
 */
module Relevance {
  import opened Text

  /** How the model's reply reads once normalised. */
  datatype Verdict = Relevant | NotRelevant | Unknown(normalised: string)

  /** The reply as compared: stripped, then upper-cased. */
  function Normalise(reply: string): string {
    Upper(Strip(reply))
  }

  /** The prefix tests on the normalised reply, "NOT RELEVANT" first. */
  function ParseVerdict(reply: string): (v: Verdict)
    ensures v == NotRelevant <==> StartsWith(Normalise(reply), "NOT RELEVANT")
    ensures v == Relevant <==> StartsWith(Normalise(reply), "RELEVANT")
    ensures v.Unknown? ==> v.normalised == Normalise(reply)
  {
    var text := Normalise(reply);
    if StartsWith(text, "NOT RELEVANT") then
      assert text[0] != "RELEVANT"[0];
      NotRelevant
    else if StartsWith(text, "RELEVANT") then Relevant
    else Unknown(text)
  }

  /** `MistralAIProcessor.__init__`: whether a key was given, as `api_key or os.getenv(...)` sees it. */
  predicate KeyPresent(apiKey: Option<string>, envKey: Option<string>) {
    Configured(apiKey) || Configured(envKey)
  }

  class Processor {
    /** `self.enabled`: set once by the constructor. */
    const enabled: bool

    /**
     * `langchainAvailable` is whether the optional import succeeded; `modelReady` is
     * whether building the chat model and prompt template raised nothing.
     */
    constructor (langchainAvailable: bool, apiKey: Option<string>, envKey: Option<string>, modelReady: bool)
      ensures enabled <==> langchainAvailable && KeyPresent(apiKey, envKey) && modelReady
    {
      if !langchainAvailable {
        enabled := false;
      } else if !Configured(if Configured(apiKey) then apiKey else envKey) {
        enabled := false;
      } else {
        enabled := modelReady;
      }
    }

    /** `is_message_relevant`, given the model's reply (`None` when the call raised). */
    function IsMessageRelevant(reply: Option<string>): (relevant: bool)
      ensures !enabled ==> relevant
      ensures !relevant <==> enabled && reply.Some? && StartsWith(Normalise(reply.value), "NOT RELEVANT")
    {
      if !enabled then true
      else match reply
        case None => true
        case Some(text) =>
          match ParseVerdict(text)
          case NotRelevant => false
          case Relevant => true
          case Unknown(_) => true
    }

    /** `process_message`: the model's reply, or `None` when disabled or when the call raised. */
    function ProcessMessage(reply: Option<string>): (result: Option<string>)
      ensures result.Some? ==> enabled && result == reply
      ensures enabled && reply.Some? ==> result == reply
    {
      if !enabled then None else reply
    }
  }

  /** Surrounding whitespace and letter case in the reply never change the verdict. */
  lemma VerdictIgnoresCaseAndPadding(s: string, t: string, w1: string, w2: string)
    requires AllSpace(w1) && AllSpace(w2)
    requires Upper(s) == Upper(t)
    ensures ParseVerdict(w1 + s + w2) == ParseVerdict(t)
  {
    StripIgnoresPadding(w1, s, w2);
    StripUpperCommute(s);
    StripUpperCommute(t);
  }

  /** A lower-case "not relevant" inside whitespace is a refusal. */
  lemma NotRelevantExample()
    ensures ParseVerdict(" not relevant\n") == NotRelevant
  {
    var a := " not relevant\n";
    assert StripLeft(a) == StripLeft(a[1..]) == a[1..];
    assert StripRight(a[1..]) == StripRight(a[1..|a| - 1]) == "not relevant";
    var n := Normalise(a);
    assert n == Upper("not relevant");
    assert n[..12] == "NOT RELEVANT";
  }

  /** Trailing text after the leading word does not matter. */
  lemma RelevantExample()
    ensures ParseVerdict("Relevant.") == Relevant
  {
    var a := "Relevant.";
    assert StripLeft(a) == a;
    assert StripRight(a) == a;
    var n := Normalise(a);
    assert n == Upper(a);
    assert n[..8] == "RELEVANT";
  }

  /** Neither prefix: the words run together, so the reply is not in the expected format. */
  lemma RunTogetherIsUnknown()
    ensures ParseVerdict("NOTRELEVANT").Unknown?
  {
    var a := "NOTRELEVANT";
    assert StripLeft(a) == a;
    assert StripRight(a) == a;
    var n := Normalise(a);
    assert n == Upper(a);
    assert n[0] == 'N' && n[3] == 'R';
  }

  /** Neither prefix: a word that merely contains "RELEVANT". */
  lemma IrrelevantIsUnknown()
    ensures ParseVerdict("Irrelevant").Unknown?
  {
    var b := "Irrelevant";
    assert StripLeft(b) == b;
    assert StripRight(b) == b;
    var n := Normalise(b);
    assert n == Upper(b);
    assert n[0] == 'I';
  }

  /** Once enabled, the processor refuses a message only on a "NOT RELEVANT" reply; a failed call or any other reply lets it through. */
  lemma FailOpen(p: Processor, reply: Option<string>)
    requires p.enabled
    ensures reply.None? ==> p.IsMessageRelevant(reply)
    ensures reply.Some? && ParseVerdict(reply.value).Unknown? ==> p.IsMessageRelevant(reply)
    ensures reply.Some? && ParseVerdict(reply.value) == Relevant ==> p.IsMessageRelevant(reply)
    ensures reply.Some? && ParseVerdict(reply.value) == NotRelevant ==> !p.IsMessageRelevant(reply)
  {
  }
}
