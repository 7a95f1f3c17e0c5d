/**
 * The HTTP front of the retrieval engine (fin_rag_backend/server.py): the
 * regular-expression guardrail over the incoming message, the fixed refusal
 * it triggers, the mapping of retrieved chunks into response sources, and the
 * mapping of the engine's exceptions into HTTP 500 errors.
 */
module RagServer {
  import opened Wrappers
  import opened Corpus
  import opened RagEngine

  // ---------------------------------------------------------------- check_guardrails

  /**
   * `c` matches the lower-case pattern character `p` under `re.IGNORECASE`:
   * the character itself, its upper-case form, and the further characters
   * Python's case-insensitive matching relates to i, s and k (dotted capital
   * I, dotless i, long s, Kelvin sign).
   */
  predicate FoldsTo(c: char, p: char) {
    c == p
    || ('a' <= p <= 'z' && c as int == p as int - 32)
    || (p == 'i' && (c == '\U{0130}' || c == '\U{0131}'))
    || (p == 's' && c == '\U{017F}')
    || (p == 'k' && c == '\U{212A}')
  }

  /** The literal `p` matches `s` case-insensitively from index `i`. */
  predicate MatchesAt(s: string, i: nat, p: string)
    decreases |p|
  {
    if p == [] then i <= |s|
    else i < |s| && FoldsTo(s[i], p[0]) && MatchesAt(s, i + 1, p[1..])
  }

  /** A risk pattern: a literal, or `before(.*)after`. */
  datatype Pattern = Literal(text: string) | Gap(before: string, after: string)

  /** `r"buy (.*) stock"`, `r"invest in (.*) coin"`, `r"double my money"`, `r"guaranteed return"`. */
  const RiskPatterns: seq<Pattern> := [
    Gap("buy ", " stock"),
    Gap("invest in ", " coin"),
    Literal("double my money"),
    Literal("guaranteed return")
  ]

  /** No line break in `s[a..b]`: `.` matches every character but `\n`. */
  predicate OnOneLine(s: string, a: nat, b: nat) {
    forall m :: a <= m < b && m < |s| ==> s[m] != '\n'
  }

  /** The pattern matches `s` from index `i`. */
  predicate PatternAt(s: string, i: nat, p: Pattern) {
    match p
    case Literal(t) => MatchesAt(s, i, t)
    case Gap(before, after) =>
      MatchesAt(s, i, before)
      && exists j :: i + |before| <= j <= |s| && MatchesAt(s, j, after) && OnOneLine(s, i + |before|, j)
  }

  /** `re.search(pattern, s, re.IGNORECASE)` finds a match. */
  predicate Occurs(s: string, p: Pattern) {
    exists i :: 0 <= i <= |s| && PatternAt(s, i, p)
  }

  /** The scan for `after` that `(.*)` performs from index `j`, stopping at the end of the line. */
  function AfterOnLine(s: string, j: nat, after: string): bool
    requires j <= |s|
    decreases |s| - j
  {
    if MatchesAt(s, j, after) then true
    else if j == |s| || s[j] == '\n' then false
    else AfterOnLine(s, j + 1, after)
  }

  lemma {:induction false} AfterOnLineIff(s: string, j: nat, after: string)
    requires j <= |s|
    ensures AfterOnLine(s, j, after) <==> exists k :: j <= k <= |s| && MatchesAt(s, k, after) && OnOneLine(s, j, k)
    decreases |s| - j
  {
    if MatchesAt(s, j, after) {
      assert OnOneLine(s, j, j);
    } else if j == |s| || s[j] == '\n' {
      forall k | j <= k <= |s| && MatchesAt(s, k, after) ensures !OnOneLine(s, j, k) {
        assert k != j;
        assert j < k && s[j] == '\n';
      }
    } else {
      AfterOnLineIff(s, j + 1, after);
      if AfterOnLine(s, j + 1, after) {
        var k :| j + 1 <= k <= |s| && MatchesAt(s, k, after) && OnOneLine(s, j + 1, k);
        assert OnOneLine(s, j, k);
      } else {
        forall k | j <= k <= |s| && MatchesAt(s, k, after) ensures !OnOneLine(s, j, k) {
          assert k != j;
          if OnOneLine(s, j, k) {
            assert OnOneLine(s, j + 1, k);
          }
        }
      }
    }
  }

  /** The pattern matches from index `i`, as the matcher tests it. */
  function MatchHere(s: string, i: nat, p: Pattern): (r: bool)
    requires i <= |s|
    ensures r <==> PatternAt(s, i, p)
  {
    match p
    case Literal(t) => MatchesAt(s, i, t)
    case Gap(before, after) =>
      if MatchesAt(s, i, before) then
        assert i + |before| <= |s| by { MatchedLength(s, i, before); }
        AfterOnLineIff(s, i + |before|, after);
        AfterOnLine(s, i + |before|, after)
      else false
  }

  lemma {:induction false} MatchedLength(s: string, i: nat, p: string)
    requires MatchesAt(s, i, p)
    ensures i + |p| <= |s|
    decreases |p|
  {
    if p != [] {
      MatchedLength(s, i + 1, p[1..]);
    }
  }

  /** `re.search`: tries every start from `i` on, left to right. */
  function SearchFrom(s: string, i: nat, p: Pattern): bool
    requires i <= |s|
    decreases |s| - i
  {
    if MatchHere(s, i, p) then true
    else if i == |s| then false
    else SearchFrom(s, i + 1, p)
  }

  lemma {:induction false} SearchFromIff(s: string, i: nat, p: Pattern)
    requires i <= |s|
    ensures SearchFrom(s, i, p) <==> exists k :: i <= k <= |s| && PatternAt(s, k, p)
    decreases |s| - i
  {
    if !MatchHere(s, i, p) && i < |s| {
      assert !PatternAt(s, i, p);
      SearchFromIff(s, i + 1, p);
    }
  }

  /** The search over the whole message finds a match exactly when the pattern occurs in it. */
  function Search(s: string, p: Pattern): (r: bool)
    ensures r <==> Occurs(s, p)
  {
    SearchFromIff(s, 0, p);
    SearchFrom(s, 0, p)
  }

  /** The loop over the patterns: the index of the first one that matches, if any. */
  function FirstMatch(patterns: seq<Pattern>, s: string): (r: Option<nat>)
    ensures r.Some? ==> r.value < |patterns| && Occurs(s, patterns[r.value])
                        && forall k :: 0 <= k < r.value ==> !Occurs(s, patterns[k])
    ensures r.None? <==> forall k :: 0 <= k < |patterns| ==> !Occurs(s, patterns[k])
  {
    if patterns == [] then None
    else if Search(s, patterns[0]) then Some(0)
    else
      match FirstMatch(patterns[1..], s)
      case None => None
      case Some(k) => Some(k + 1)
  }

  /** `check_guardrails`. */
  predicate CheckGuardrails(message: string) {
    FirstMatch(RiskPatterns, message).Some?
  }

  /** `s` contains the literal `t`, compared case-insensitively. */
  predicate ContainsFolded(s: string, t: string) {
    exists i :: 0 <= i <= |s| && MatchesAt(s, i, t)
  }

  /** `s` contains `before`, followed later on the same line by `after`, compared case-insensitively. */
  predicate FollowedOnLine(s: string, before: string, after: string) {
    exists i, j :: 0 <= i && i + |before| <= j <= |s|
                   && MatchesAt(s, i, before) && MatchesAt(s, j, after) && OnOneLine(s, i + |before|, j)
  }

  /** A gap pattern occurs exactly when its two halves appear in order on one line. */
  lemma GapOccursIff(s: string, before: string, after: string)
    ensures Occurs(s, Gap(before, after)) <==> FollowedOnLine(s, before, after)
  {
    if FollowedOnLine(s, before, after) {
      var i, j :| 0 <= i && i + |before| <= j <= |s|
                  && MatchesAt(s, i, before) && MatchesAt(s, j, after) && OnOneLine(s, i + |before|, j);
      assert PatternAt(s, i, Gap(before, after));
    }
    if Occurs(s, Gap(before, after)) {
      var i :| 0 <= i <= |s| && PatternAt(s, i, Gap(before, after));
      var j :| i + |before| <= j <= |s| && MatchesAt(s, j, after) && OnOneLine(s, i + |before|, j);
      assert FollowedOnLine(s, before, after);
    }
  }

  /** A literal pattern occurs exactly when the message contains it. */
  lemma LiteralOccursIff(s: string, t: string)
    ensures Occurs(s, Literal(t)) <==> ContainsFolded(s, t)
  {
    if Occurs(s, Literal(t)) {
      var i :| 0 <= i <= |s| && PatternAt(s, i, Literal(t));
      assert MatchesAt(s, i, t);
    }
    if ContainsFolded(s, t) {
      var i :| 0 <= i <= |s| && MatchesAt(s, i, t);
      assert PatternAt(s, i, Literal(t));
    }
  }

  /** The guardrail fires exactly when one of the four risky phrasings is present. */
  lemma GuardrailsIff(message: string)
    ensures CheckGuardrails(message) <==>
              FollowedOnLine(message, "buy ", " stock")
              || FollowedOnLine(message, "invest in ", " coin")
              || ContainsFolded(message, "double my money")
              || ContainsFolded(message, "guaranteed return")
  {
    assert RiskPatterns[0] == Gap("buy ", " stock");
    assert RiskPatterns[1] == Gap("invest in ", " coin");
    assert RiskPatterns[2] == Literal("double my money");
    assert RiskPatterns[3] == Literal("guaranteed return");
    GapOccursIff(message, "buy ", " stock");
    GapOccursIff(message, "invest in ", " coin");
    LiteralOccursIff(message, "double my money");
    LiteralOccursIff(message, "guaranteed return");
    var r := FirstMatch(RiskPatterns, message);
    if r.None? {
      assert !Occurs(message, RiskPatterns[0]) && !Occurs(message, RiskPatterns[1]);
      assert !Occurs(message, RiskPatterns[2]) && !Occurs(message, RiskPatterns[3]);
    } else {
      assert Occurs(message, RiskPatterns[r.value]);
      assert r.value in {0, 1, 2, 3};
    }
  }

  /**
   * "buy stock" with a single space does not trigger: the two halves of
   * `buy (.*) stock` would have to share that space, and the other phrasings
   * are longer than the message.
   */
  lemma SingleSpaceBuyStockPasses()
    ensures !CheckGuardrails("buy stock")
  {
    var m := "buy stock";
    GuardrailsIff(m);
    forall j | 4 <= j <= |m| && MatchesAt(m, j, " stock") ensures false {
      MatchedLength(m, j, " stock");
    }
    forall i | 0 <= i <= |m| && MatchesAt(m, i, "invest in ") ensures false {
      MatchedLength(m, i, "invest in ");
    }
    forall i | 0 <= i <= |m| && MatchesAt(m, i, "double my money") ensures false {
      MatchedLength(m, i, "double my money");
    }
    forall i | 0 <= i <= |m| && MatchesAt(m, i, "guaranteed return") ensures false {
      MatchedLength(m, i, "guaranteed return");
    }
  }

  lemma {:induction false} MatchesPrefixed(a: string, b: string, i: nat, p: string)
    requires MatchesAt(b, i, p)
    ensures MatchesAt(a + b, |a| + i, p)
    decreases |p|
  {
    if p != [] {
      assert (a + b)[|a| + i] == b[i];
      MatchesPrefixed(a, b, i + 1, p[1..]);
    }
  }

  lemma {:induction false} MatchesExtended(b: string, c: string, i: nat, p: string)
    requires MatchesAt(b, i, p)
    ensures MatchesAt(b + c, i, p)
    decreases |p|
  {
    if p != [] {
      assert (b + c)[i] == b[i];
      MatchesExtended(b, c, i + 1, p[1..]);
    }
  }

  /**
   * Whatever surrounds it, and whatever sits between the halves on the same
   * line, "Buy ... STOCK" with a Kelvin sign for the K triggers the guardrail.
   */
  lemma FoldedBuyStockRefused(pre: string, mid: string, post: string)
    requires forall k :: 0 <= k < |mid| ==> mid[k] != '\n'
    ensures CheckGuardrails(pre + "Buy " + mid + " STOC\U{212A}" + post)
  {
    var buy, stock := "Buy ", " STOC\U{212A}";
    var m := pre + buy + mid + stock + post;
    var i, j := |pre|, |pre| + 4 + |mid|;
    assert MatchesAt(buy, 0, "buy ");
    MatchesExtended(buy, mid + stock + post, 0, "buy ");
    MatchesPrefixed(pre, buy + (mid + stock + post), 0, "buy ");
    assert m == pre + (buy + (mid + stock + post));
    assert MatchesAt(stock, 0, " stock");
    MatchesExtended(stock, post, 0, " stock");
    MatchesPrefixed(pre + buy + mid, stock + post, 0, " stock");
    assert m == (pre + buy + mid) + (stock + post);
    forall k | i + 4 <= k < j ensures m[k] != '\n' {
      assert m[k] == mid[k - i - 4];
    }
    assert FollowedOnLine(m, "buy ", " stock");
    GuardrailsIff(m);
  }

  // ---------------------------------------------------------------- chat_endpoint

  /** The request body; pydantic fills absent fields with their declared defaults. */
  datatype ChatRequest = ChatRequest(
    userId: string,
    message: string,
    locale: Option<string>,
    persona: Option<string>,
    history: Option<seq<HistoryEntry>>)

  /** `ChatRequest(**body)` with the declared defaults for the fields the body leaves out. */
  function RequestWithDefaults(userId: string, message: string, locale: PyField, persona: PyField,
                               history: Option<Option<seq<HistoryEntry>>>): (r: ChatRequest)
    ensures locale.Missing? ==> r.locale == Some("en-IN")
    ensures persona.Missing? ==> r.persona == Some("default")
    ensures history.None? ==> r.history == Some([])
    ensures locale.PyNone? ==> r.locale.None?
    ensures persona.PyNone? ==> r.persona.None?
  {
    ChatRequest(userId, message, FieldOr(locale, "en-IN"), FieldOr(persona, "default"), history.GetOr(Some([])))
  }

  /** A field given as text or `None`, or its default when absent. */
  function FieldOr(f: PyField, default: string): Option<string> {
    match f
    case Missing => Some(default)
    case PyNone => None
    case Str(s) => Some(s)
  }

  /** One `SourceObj` of the response. */
  datatype SourceRecord = SourceRecord(id: string, title: string, section: string, score: real)

  /** What the endpoint answers: a `ChatResponse`, or an `HTTPException`. */
  datatype Response = ChatResponse(answer: string, sources: seq<SourceRecord>) | HttpError(status: int, detail: string)

  const Refusal := ("I cannot recommend " + "specific stocks " + "or promise returns. ")
    + ("I can help you " + "understand investment " + "principles, risk " + "profiling, and " + "how to evaluate " + "assets. ")
    + ("Would you like " + "to know about " + "asset allocation " + "or risk management?")

  /** `SourceObj(id=s.get("id", "unknown"), title=s.get("title", "Reference"), ...)` for one retrieved chunk. */
  function SourceOf(c: ScoredChunk): (r: SourceRecord)
    ensures r.id == c.info.id && r.score == c.score
    ensures c.info.title.None? ==> r.title == "Reference"
    ensures c.info.title.Some? ==> r.title == c.info.title.value
    ensures c.info.section.None? ==> r.section == "General"
    ensures c.info.section.Some? ==> r.section == c.info.section.value
  {
    SourceRecord(c.info.id, c.info.title.GetOr("Reference"), c.info.section.GetOr("General"), c.score)
  }

  /** The comprehension over `result["sources"]`. */
  function MapSources(sources: seq<ScoredChunk>): (r: seq<SourceRecord>)
    ensures |r| == |sources|
    ensures forall i :: 0 <= i < |sources| ==> r[i] == SourceOf(sources[i])
  {
    if sources == [] then []
    else [SourceOf(sources[0])] + MapSources(sources[1..])
  }

  /** The response built from what `rag.chat` returned or raised. */
  function Respond(outcome: Result<ChatAnswer, PyError>): (r: Response)
    ensures outcome.Ok? ==> r == ChatResponse(outcome.value.answer, MapSources(outcome.value.sources))
    ensures outcome.Err? ==> r.HttpError? && r.status == 500
    ensures outcome.Err? && outcome.error.ValueError? ==>
              r.detail == ("Configuration " + "Error: ") + outcome.error.message
    ensures outcome.Err? && !outcome.error.ValueError? ==>
              r.detail == ("Internal Server " + "Error: ") + outcome.error.message
  {
    match outcome
    case Ok(a) => ChatResponse(a.answer, MapSources(a.sources))
    case Err(ValueError(m)) => HttpError(500, ("Configuration " + "Error: ") + m)
    case Err(e) => HttpError(500, ("Internal Server " + "Error: ") + e.message)
  }

  /**
   * `chat_endpoint`: the refusal, without touching the engine, when the
   * guardrail fires; otherwise `rag.chat` in its default lite mode, and the
   * response built from its outcome.
   */
  method ChatEndpoint(engine: Engine, api: Api, req: ChatRequest) returns (response: Response, calls: seq<ApiCall>)
    ensures CheckGuardrails(req.message) ==> response == ChatResponse(Refusal, []) && calls == []
    ensures !CheckGuardrails(req.message) && !engine.hasClient ==>
              response == HttpError(500, ("Configuration " + "Error: ") + NoClientMessage) && calls == []
    ensures !CheckGuardrails(req.message) && engine.hasClient ==>
              var standalone := Contextualized(api, req.message, req.history);
              var searched := [standalone];
              && response == Respond(ChatOutcome(engine, api, req.message, req.history, req.locale, req.persona, searched))
              && calls == ChatTrace(engine.texts, req.message, req.history, standalone, req.locale, req.persona,
                                    true, searched, Retrieved(engine, api, searched, ChatTopK, req.persona))
  {
    if FirstMatch(RiskPatterns, req.message).Some? {
      return ChatResponse(Refusal, []), [];
    }
    var outcome, searched;
    outcome, searched, calls := Chat(engine, api, req.message, req.history, req.locale, req.persona, true);
    response := Respond(outcome);
  }

  /** An answered request lists at most five sources, each id once, best score first. */
  lemma AnsweredSources(engine: Engine, api: Api, req: ChatRequest, searched: seq<string>)
    ensures var r := Respond(ChatOutcome(engine, api, req.message, req.history, req.locale, req.persona, searched));
            r.ChatResponse? ==>
              && |r.sources| <= ChatTopK
              && (forall i, j :: 0 <= i < j < |r.sources| ==> r.sources[i].id != r.sources[j].id)
              && (forall i, j :: 0 <= i < j < |r.sources| ==> r.sources[i].score >= r.sources[j].score)
  {
    var outcome := ChatOutcome(engine, api, req.message, req.history, req.locale, req.persona, searched);
    ChatSources(engine, api, req.message, req.history, req.locale, req.persona, searched);
    if outcome.Ok? {
      var s := outcome.value.sources;
      var r := MapSources(s);
      assert forall i :: 0 <= i < |s| ==> r[i].id == s[i].info.id && r[i].score == s[i].score;
    }
  }

  /** A `None` persona reaches `persona.lower()` and is answered with an internal error. */
  lemma NullPersonaIsInternalError(engine: Engine, api: Api, req: ChatRequest, searched: seq<string>)
    requires req.persona.None?
    ensures Respond(ChatOutcome(engine, api, req.message, req.history, req.locale, req.persona, searched))
            == HttpError(500, ("Internal Server " + "Error: ") + NoneLowerMessage)
  {
  }
}
