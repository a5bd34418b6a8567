/** The reply text of the analysing bot (SentinelAI/main.py:177-217): question cleaning, the
    250-character cut of the model's answer, the random de-duplication suffix, and the two fixed
    fallback messages. */
module Composer {
  import opened Wrappers
  import opened Text

  const DefaultQuestion := "What is the analysis of this post?"

  /** The reply when no language-model client is configured. */
  const NotConfiguredReply := "I'm sorry, I couldn't analyze this tweet right now because my AI brain (Gemini) isn't configured."

  /** The start of the reply used when the language-model step raises. */
  const ErrorReplyHead := "Hmm, I ran into a bit of trouble with my AI processing for that one! [err_"

  /** The longest answer kept whole, and how much of a longer one survives before "...". */
  const MaxAnswer := 250
  const KeptPrefix := 247

  /** The platform's hard limit on a post. */
  const PostLimit := 280

  /** Characters of `string.ascii_lowercase + string.digits`. */
  predicate IsSuffixChar(c: char) {
    'a' <= c <= 'z' || '0' <= c <= '9'
  }

  /** The value of `"".join(random.choices(ascii_lowercase + digits, k=4))`. */
  type Suffix = s: string | |s| == 4 && forall i :: 0 <= i < |s| ==> IsSuffixChar(s[i]) witness "0000"

  /** The value of `random.randint(100, 999)`. */
  type ErrToken = n: int | 100 <= n <= 999 witness 100

  /** SentinelAI/main.py:181-183: every "@<bot username>" is cut out (Python `str.replace`),
      the rest stripped, and an empty result replaced by the default question. */
  function CleanQuestion(question: string, botUsername: string): (r: string)
    ensures r != [] && NoEdgeSpace(r)
    ensures AllSpace(RemoveAll(question, "@" + botUsername)) ==> r == DefaultQuestion
    ensures !AllSpace(RemoveAll(question, "@" + botUsername)) ==> r == Strip(RemoveAll(question, "@" + botUsername))
    ensures !Contains(question, "@" + botUsername) && !AllSpace(question) ==> r == Strip(question)
  {
    var cleaned := Strip(RemoveAll(question, "@" + botUsername));
    if cleaned == [] then DefaultQuestion else cleaned
  }

  /** A question that is only the bot's handle becomes the default question. */
  lemma BareMentionAsksDefault(botUsername: string)
    ensures CleanQuestion("@" + botUsername, botUsername) == DefaultQuestion
  {
    var pat := "@" + botUsername;
    assert pat <= pat;
    assert pat[|pat|..] == [];
  }

  /** A question that opens with the bot's handle is asked without it: the handle is cut and
      the rest, with any later handles cut too, is stripped. */
  lemma LeadingHandleIsCut(botUsername: string, rest: string)
    requires !AllSpace(RemoveAll(rest, "@" + botUsername))
    ensures CleanQuestion("@" + botUsername + rest, botUsername) == Strip(RemoveAll(rest, "@" + botUsername))
  {
    var pat := "@" + botUsername;
    var q := pat + rest;
    assert RemoveAll(q, pat) == RemoveAll(rest, pat) by {
      var hay := pat[..|pat| - 1];
      LongerNeverContained(hay, pat);
      assert [] + hay == hay;
      RemoveAllFirstOccurrence([], pat, rest);
      assert [] + pat + rest == q;
    }
    assert "@" + botUsername + rest == q;
  }

  /** `str.replace` removes the occurrences of the original text, so the cleaned question can
      still contain the handle: "@@BotBot" cleans to "@Bot". */
  lemma HandleCanSurviveCleaning()
    ensures CleanQuestion("@@BotBot", "Bot") == "@Bot"
  {
    var pat := "@Bot";
    assert RemoveAll("", pat) == "";
    assert RemoveAll("t", pat) == "t";
    assert RemoveAll("ot", pat) == "ot";
    assert RemoveAll("Bot", pat) == "Bot";
    assert RemoveAll("@BotBot", pat) == "Bot" by {
      assert pat <= "@BotBot";
      assert "@BotBot"[|pat|..] == "Bot";
    }
    assert RemoveAll("@@BotBot", pat) == "@Bot" by {
      assert "@@BotBot"[1] != pat[1];
      assert "@@BotBot"[1..] == "@BotBot";
    }
    assert Strip("@Bot") == "@Bot" by {
      assert NoEdgeSpace("@Bot");
    }
  }

  /** SentinelAI/main.py:209-210: an answer over 250 characters is cut to its first 247 plus
      "...". */
  function TruncateAnswer(a: string): (r: string)
    ensures |r| <= MaxAnswer
    ensures |a| <= MaxAnswer ==> r == a
    ensures |a| > MaxAnswer ==> |r| == MaxAnswer && r[..KeptPrefix] == a[..KeptPrefix] && r[KeptPrefix..] == "..."
  {
    if |a| > MaxAnswer then a[..KeptPrefix] + "..." else a
  }

  /** The tag appended to every answer (SentinelAI/main.py:214). */
  function RefTag(suffix: Suffix): (r: string)
    ensures |r| == 13
  {
    "\n\n[Ref: " + suffix + "]"
  }

  /** The reply built from the language model's answer text: stripped, cut to 250, tagged. */
  function ComposeReply(answer: string, suffix: Suffix): (r: string)
    ensures |r| <= MaxAnswer + 13
    ensures |r| >= 13 && r[|r| - 13..] == RefTag(suffix)
    ensures r[..|r| - 13] == TruncateAnswer(Strip(answer))
  {
    var r := TruncateAnswer(Strip(answer)) + RefTag(suffix);
    assert r[..|r| - 13] == TruncateAnswer(Strip(answer));
    r
  }

  /** A stripped answer of at most 250 characters is posted verbatim, followed by the tag. */
  lemma ShortAnswerKept(answer: string, suffix: Suffix)
    requires |Strip(answer)| <= MaxAnswer
    ensures ComposeReply(answer, suffix) == Strip(answer) + RefTag(suffix)
  {
    assert TruncateAnswer(Strip(answer)) == Strip(answer);
  }

  /** Two replies whose suffixes differ are different posts, whatever the answers: the suffix is
      what defeats the platform's duplicate-content check. */
  lemma DistinctSuffixesDistinctReplies(a1: string, s1: Suffix, a2: string, s2: Suffix)
    requires s1 != s2
    ensures ComposeReply(a1, s1) != ComposeReply(a2, s2)
  {
    assert RefTag(s1)[8..12] == s1 && RefTag(s2)[8..12] == s2;
  }

  /** The reply used when the language-model step raises (SentinelAI/main.py:217). */
  function ErrorReply(token: ErrToken): (r: string)
    ensures |r| == |ErrorReplyHead| + 4
    ensures r[..|ErrorReplyHead|] == ErrorReplyHead
    ensures r[|r| - 1] == ']'
    ensures forall i :: |ErrorReplyHead| <= i < |r| - 1 ==> IsDigit(r[i])
    ensures DecimalValue(r[|ErrorReplyHead|..|r| - 1]) == token
  {
    var digits := Decimal(token);
    assert |digits| == 3 by {
      assert token / 10 >= 10 && token / 100 < 10;
      assert |Decimal(token / 100)| == 1;
      assert |Decimal(token / 10)| == 2;
    }
    var reply := ErrorReplyHead + digits + "]";
    assert reply[|ErrorReplyHead|..|reply| - 1] == digits;
    DecimalRoundTrip(token);
    reply
  }

  /** The outcome of the language-model call: it raised, or it returned a response whose `text`
      may be `None`. */
  datatype LlmOutcome = LlmRaises | LlmReturns(text: Option<string>)

  /** Which of the three replies SentinelAI/main.py:177-217 settles on: the fixed apology when no
      client is configured, a reply composed from the answer, or the error notice with its
      token. `ReplyText` gives the text that is posted. */
  datatype Reply = NotConfigured | Composed(text: string) | Trouble(token: ErrToken)

  /** The text posted for a reply. */
  function ReplyText(r: Reply): (t: string)
    ensures r.NotConfigured? ==> t == NotConfiguredReply
    ensures r.Composed? ==> t == r.text
    ensures r.Trouble? ==> t == ErrorReply(r.token)
  {
    match r
    case NotConfigured => NotConfiguredReply
    case Composed(text) => text
    case Trouble(token) => ErrorReply(token)
  }

  /** A reply whose composed text holds at least the tag and at most a cut answer plus the tag. */
  predicate Bounded(r: Reply) {
    r.Composed? ==> 13 <= |r.text| <= MaxAnswer + 13
  }

  /** SentinelAI/main.py:177-217 once the client test is decided: the fixed apology without a
      client, the composed reply when an answer text came back, the error notice otherwise (the
      call raised, or `.strip()` was applied to a `None` text). */
  function Answer(configured: bool, llm: LlmOutcome, suffix: Suffix, token: ErrToken): (r: Reply)
    ensures Bounded(r)
    ensures r.NotConfigured? <==> !configured
    ensures r.Composed? <==> configured && llm.LlmReturns? && llm.text.Some?
    ensures r.Composed? ==>
              && r.text[..|r.text| - 13] == TruncateAnswer(Strip(llm.text.value))
              && r.text[|r.text| - 13..] == RefTag(suffix)
    ensures r.Trouble? ==> r.token == token
  {
    if !configured then NotConfigured
    else match llm
      case LlmReturns(Some(text)) => Composed(ComposeReply(text, suffix))
      case _ => Trouble(token)
  }

  /** Every text the bot can post is non-empty and fits in a post. */
  lemma BoundedReplyFits(r: Reply)
    requires Bounded(r)
    ensures 0 < |ReplyText(r)| <= PostLimit
  {
  }

  /** Every reply the bot composes fits in a post. */
  lemma EveryReplyFitsPost(configured: bool, llm: LlmOutcome, suffix: Suffix, token: ErrToken)
    ensures 0 < |ReplyText(Answer(configured, llm, suffix, token))| <= PostLimit
  {
    BoundedReplyFits(Answer(configured, llm, suffix, token));
  }
}
