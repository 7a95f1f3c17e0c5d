/**
 * The retrieval-augmented answering engine (fin_rag_backend/rag_engine.py). Its
 * steps are: rewrite the question with the recent conversation, optionally
 * expand it into several search queries, score the persona's chunks against
 * each query embedding (keeping each chunk id once), sort by score, keep the
 * best five, and generate the answer from them.
 *
 * The model API is a parameter `api`:
 *  - `embed` gives a query's embedding, or `None` where the call raises;
 *  - `similarity` is the cosine score;
 *  - `generate` answers a list of user turns.
 * Every operation also returns the API calls it made, in order, so that skipped
 * steps are visible.
 *
 * The prompt texts are written as concatenated pieces: the verifier's cost for
 * a string literal grows quickly with its length, and the pieces spell the
 * same text.
 */
module RagEngine {
  import opened Wrappers
  import opened Text
  import opened Corpus

  // ---------------------------------------------------------------- model API

  /** A generation candidate; `parts` is `None` for a content without parts. */
  datatype Candidate = Candidate(parts: Option<seq<Option<string>>>)

  /** What `generate_content` gives: candidates, or an exception. */
  datatype Generation = Generated(candidates: seq<Candidate>) | GenerationFailed

  datatype Api = Api(
    embed: string -> Option<seq<real>>,
    similarity: (seq<real>, seq<real>) -> real,
    generate: seq<string> -> Generation)

  /** One call to the model API: a generation with its user turns, or an embedding. */
  datatype ApiCall = GenerateCall(contents: seq<string>) | EmbedCall(text: string)

  /**
   * The fixed texts of the answer's system prompt: the style block of each of
   * the three personas, and the guardrail and format instructions that close it.
   */
  datatype AnswerTexts = AnswerTexts(naval: string, ray: string, buffett: string, instructions: string)

  /**
   * The engine: whether a client was built (the API key was set), the loaded
   * chunks, and the answer prompt texts (`SourceAnswerTexts` for every engine
   * `NewEngine` builds).
   */
  datatype Engine = Engine(hasClient: bool, chunks: seq<Chunk>, texts: AnswerTexts)

  /** The exceptions `chat` can raise, with their messages. */
  datatype PyError = ValueError(message: string) | AttributeError(message: string)

  const NoClientMessage := ("GEMINI_API_KEY " + "not configured")
  const NoneLowerMessage := ("'NoneType' object " + "has no attribute " + "'lower'")

  // ---------------------------------------------------------------- generation

  /** The truthy part texts of one candidate, concatenated. */
  function PartsText(parts: seq<Option<string>>): string {
    if parts == [] then ""
    else PartsText(parts[..|parts| - 1]) + parts[|parts| - 1].GetOr("")
  }

  predicate HasText(parts: seq<Option<string>>) {
    exists k :: 0 <= k < |parts| && parts[k].Some? && parts[k].value != ""
  }

  predicate CandidateHasText(c: Candidate) {
    c.parts.Some? && HasText(c.parts.value)
  }

  /** The answer `_generate_text` accumulates over all candidates and parts. */
  function AnswerText(candidates: seq<Candidate>): string {
    if candidates == [] then ""
    else
      var c := candidates[|candidates| - 1];
      AnswerText(candidates[..|candidates| - 1]) + (if c.parts.Some? then PartsText(c.parts.value) else "")
  }

  lemma {:induction false} PartsTextEmpty(parts: seq<Option<string>>)
    ensures PartsText(parts) == "" <==> !HasText(parts)
  {
    if parts != [] {
      var n := |parts| - 1;
      var init := parts[..n];
      PartsTextEmpty(init);
      if HasText(parts) {
        var k :| 0 <= k < |parts| && parts[k].Some? && parts[k].value != "";
        if k < n {
          assert init[k] == parts[k];
        }
      }
      if HasText(init) {
        var k :| 0 <= k < |init| && init[k].Some? && init[k].value != "";
        assert parts[k] == init[k];
      }
    }
  }

  /** The generated answer is empty exactly when no candidate carries a non-empty part. */
  lemma {:induction false} AnswerTextEmpty(candidates: seq<Candidate>)
    ensures AnswerText(candidates) == "" <==> forall i :: 0 <= i < |candidates| ==> !CandidateHasText(candidates[i])
  {
    if candidates != [] {
      var n := |candidates| - 1;
      var init := candidates[..n];
      AnswerTextEmpty(init);
      if candidates[n].parts.Some? {
        PartsTextEmpty(candidates[n].parts.value);
      }
      assert forall i :: 0 <= i < n ==> init[i] == candidates[i];
    }
  }

  /** The turns `_generate_text` sends: the system prompt (when non-empty), then the prompt. */
  function GenerationContents(prompt: string, system: string): (r: seq<string>)
    ensures |r| == (if system != "" then 2 else 1)
    ensures r[|r| - 1] == prompt
    ensures system != "" ==> r[0] == system
  {
    (if system != "" then [system] else []) + [prompt]
  }

  /** `_generate_text`: the concatenated answer, or "" when the call raises. */
  function GenerateText(api: Api, prompt: string, system: string): (r: string)
    ensures api.generate(GenerationContents(prompt, system)).GenerationFailed? ==> r == ""
  {
    match api.generate(GenerationContents(prompt, system))
    case GenerationFailed => ""
    case Generated(candidates) => AnswerText(candidates)
  }

  // ---------------------------------------------------------------- contextualize_query

  /** A value read with `dict.get`: absent, `None`, or a string. */
  datatype PyField = Missing | PyNone | Str(s: string)

  /** A history entry, with the three keys the rewriting step reads. */
  datatype HistoryEntry = HistoryEntry(role: PyField, content: PyField, message: PyField)

  /** `f"{h.get(key, default)}"`. */
  function Formatted(f: PyField, default: string): string {
    match f
    case Missing => default
    case PyNone => "None"
    case Str(s) => s
  }

  /** `h.get("content", "") or h.get("message", "")`, as formatted. */
  function EntryContent(h: HistoryEntry): string {
    if h.content.Str? && h.content.s != "" then h.content.s else Formatted(h.message, "")
  }

  function HistoryLine(h: HistoryEntry): string {
    Formatted(h.role, "unknown") + ": " + EntryContent(h) + "\n"
  }

  /** The `hist_text` accumulated over the given entries. */
  function HistText(entries: seq<HistoryEntry>): string {
    if entries == [] then ""
    else HistText(entries[..|entries| - 1]) + HistoryLine(entries[|entries| - 1])
  }

  lemma {:induction false} HistTextAppend(a: seq<HistoryEntry>, b: seq<HistoryEntry>)
    ensures HistText(a + b) == HistText(a) + HistText(b)
    decreases |b|
  {
    if b == [] {
      assert a + b == a;
    } else {
      var n := |b| - 1;
      HistTextAppend(a, b[..n]);
      assert (a + b)[..|a + b| - 1] == a + b[..n];
      assert (a + b)[|a + b| - 1] == b[n];
      TextAssoc(HistText(a), HistText(b[..n]), HistoryLine(b[n]));
    }
  }

  lemma TextAssoc(x: string, y: string, z: string)
    ensures x + y + z == x + (y + z)
  {
  }

  /** `hist_text` is one line per entry, in order. */
  lemma HistTextLines(a: seq<HistoryEntry>, h: HistoryEntry, b: seq<HistoryEntry>)
    ensures HistText(a + [h] + b) == HistText(a) + HistoryLine(h) + HistText(b)
  {
    HistTextAppend(a + [h], b);
    assert (a + [h])[..|a|] == a;
  }

  /** The loop of `contextualize_query` that builds `hist_text`. */
  method HistoryText(recent: seq<HistoryEntry>) returns (text: string)
    ensures text == HistText(recent)
  {
    text := "";
    for k := 0 to |recent|
      invariant text == HistText(recent[..k])
    {
      assert recent[..k + 1][..k] == recent[..k];
      text := text + HistoryLine(recent[k]);
    }
    assert recent[..|recent|] == recent;
  }

  /** Python's `s[-n:]` for a positive `n`. */
  function PyLast<T>(s: seq<T>, n: nat): (r: seq<T>)
    ensures |r| == Min(n, |s|)
    ensures r == s[|s| - |r|..]
  {
    if |s| <= n then s else s[|s| - n..]
  }

  const ContextSystem :=
      ("You are a helpful " + "assistant that " + "rewrites a user's " + "question ")
    + ("to be standalone, " + "based on the " + "conversation " + "history. \n")
    + ("        If the " + "history is not " + "relevant, return " + "the query as ")
    + "is.\n"
    + ("        Do NOT " + "answer the question. " + "Just return the " + "rewording.")

  function ContextPrompt(query: string, histText: string): string {
    ("Conversation " + "History:\n        ") + histText + ("\n        \n   " + "     User's latest " + "question: ") + query
    + ("\n        \n   " + "     Rewritten " + "standalone question:")
  }

  /** `not history`: no list, or an empty one. */
  predicate NoHistory(history: Option<seq<HistoryEntry>>) {
    history.None? || history.value == []
  }

  /** The rewriting prompt made from the last four entries. */
  function RewritePrompt(query: string, history: seq<HistoryEntry>): string {
    ContextPrompt(query, HistText(PyLast(history, 4)))
  }

  /** The standalone question `contextualize_query` returns. */
  function Contextualized(api: Api, query: string, history: Option<seq<HistoryEntry>>): (r: string)
    ensures NoHistory(history) ==> r == query
  {
    if NoHistory(history) then query
    else
      var rewritten := GenerateText(api, RewritePrompt(query, history.value), ContextSystem);
      if rewritten != "" then PyStrip(rewritten) else query
  }

  /** The API calls `contextualize_query` makes. */
  function ContextCalls(query: string, history: Option<seq<HistoryEntry>>): (r: seq<ApiCall>)
    ensures |r| <= 1
    ensures NoHistory(history) <==> r == []
  {
    if NoHistory(history) then []
    else [GenerateCall(GenerationContents(RewritePrompt(query, history.value), ContextSystem))]
  }

  method ContextualizeQuery(api: Api, query: string, history: Option<seq<HistoryEntry>>)
    returns (standalone: string, calls: seq<ApiCall>)
    ensures standalone == Contextualized(api, query, history)
    ensures calls == ContextCalls(query, history)
  {
    if history.None? || history.value == [] {
      return query, [];
    }
    var recent := PyLast(history.value, 4);
    var histText := HistoryText(recent);
    var prompt := ContextPrompt(query, histText);
    var newQuery := GenerateText(api, prompt, ContextSystem);
    calls := [GenerateCall(GenerationContents(prompt, ContextSystem))];
    standalone := if newQuery != "" then PyStrip(newQuery) else query;
  }

  /** Only the last four history entries reach the rewriting prompt. */
  lemma ContextWindow(api: Api, query: string, older: seq<HistoryEntry>, recent: seq<HistoryEntry>)
    requires |recent| >= 4
    ensures Contextualized(api, query, Some(older + recent)) == Contextualized(api, query, Some(recent))
    ensures ContextCalls(query, Some(older + recent)) == ContextCalls(query, Some(recent))
  {
    var all := older + recent;
    assert all[|all| - 4..] == recent[|recent| - 4..];
    assert PyLast(all, 4) == PyLast(recent, 4);
  }

  /** When the rewrite produces no text, the original question is kept. */
  lemma EmptyRewriteKeepsQuery(api: Api, query: string, history: seq<HistoryEntry>)
    requires history != []
    requires var g := api.generate(GenerationContents(RewritePrompt(query, history), ContextSystem));
             g.GenerationFailed? || forall i :: 0 <= i < |g.candidates| ==> !CandidateHasText(g.candidates[i])
    ensures Contextualized(api, query, Some(history)) == query
  {
    var g := api.generate(GenerationContents(RewritePrompt(query, history), ContextSystem));
    if g.Generated? {
      AnswerTextEmpty(g.candidates);
    }
  }

  /** A rewrite made only of whitespace is not empty, so it is stripped to "" instead of falling back. */
  lemma BlankRewriteGivesEmptyQuery(api: Api, query: string, history: seq<HistoryEntry>)
    requires history != []
    requires var t := GenerateText(api, RewritePrompt(query, history), ContextSystem);
             t != "" && forall i :: 0 <= i < |t| ==> IsPySpace(t[i])
    ensures Contextualized(api, query, Some(history)) == ""
  {
    TrimEmptyIff(GenerateText(api, RewritePrompt(query, history), ContextSystem), IsPySpace);
  }

  // ---------------------------------------------------------------- expand_query

  const ExpandSystem :=
      ("You are a search " + "query optimizer. " + "Generate 3 different " + "search ")
    + ("queries based " + "on the user's " + "input.\n")
    + ("        The queries " + "should cover " + "different aspects " + "or terms ")
    + ("related to the " + "user's intent " + "to find the best " + "financial documents.\n")
    + ("        Return " + "ONLY the 3 queries, " + "separated by " + "newlines. No ")
    + "numbering."

  function ExpandPrompt(query: string): string {
    "User input: " + query
  }

  /** `[v.strip() for v in lines if v.strip()]`. */
  function NonBlank(lines: seq<string>): (r: seq<string>)
    ensures |r| <= |lines|
    ensures forall v :: v in r ==> v != "" && exists l :: l in lines && v == PyStrip(l)
  {
    if lines == [] then []
    else
      var n := |lines| - 1;
      var rest := NonBlank(lines[..n]);
      assert forall l :: l in lines[..n] ==> l in lines;
      rest + (if PyStrip(lines[n]) != "" then [PyStrip(lines[n])] else [])
  }

  /** The variations read off the generated text, one per non-blank line. */
  function Variations(text: string): seq<string> {
    NonBlank(Split(text, '\n'))
  }

  /** The variations generated for a query. */
  function Expansions(api: Api, query: string): seq<string> {
    Variations(GenerateText(api, ExpandPrompt(query), ExpandSystem))
  }

  /** `set([query] + variations)`. */
  function Pool(query: string, variations: seq<string>): set<string> {
    {query} + set v | v in variations
  }

  predicate Distinct<T(==)>(s: seq<T>) {
    forall i, j :: 0 <= i < j < |s| ==> s[i] != s[j]
  }

  /**
   * What `list(set(...))[:4]` may give: the pool listed in some order without
   * repeats, cut to four.
   */
  predicate ValidExpansion(query: string, variations: seq<string>, r: seq<string>) {
    |r| == Min(4, |Pool(query, variations)|)
    && Distinct(r)
    && forall v :: v in r ==> v in Pool(query, variations)
  }

  /** `list(pool)`: the set's elements in some order, each once. */
  method ListSet(pool: set<string>) returns (listed: seq<string>)
    ensures Distinct(listed)
    ensures |listed| == |pool|
    ensures forall v :: v in listed <==> v in pool
  {
    var rest := pool;
    listed := [];
    while rest != {}
      invariant rest <= pool
      invariant |listed| + |rest| == |pool|
      invariant Distinct(listed)
      invariant forall v :: v in listed ==> v in pool && v !in rest
      invariant forall v :: v in pool ==> v in listed || v in rest
      decreases |rest|
    {
      var x :| x in rest;
      listed := listed + [x];
      rest := rest - {x};
    }
  }

  /** `list(pool)[:4]`: at most four of the pool's elements, each once. */
  method ListFirstFour(pool: set<string>) returns (r: seq<string>)
    ensures |r| == Min(4, |pool|)
    ensures Distinct(r)
    ensures forall v :: v in r ==> v in pool
  {
    var listed := ListSet(pool);
    r := listed[..Min(4, |listed|)];
    assert forall v :: v in r ==> v in listed;
  }

  /** `expand_query`; the set's iteration order is left open. */
  method ExpandQuery(api: Api, query: string) returns (queries: seq<string>, calls: seq<ApiCall>)
    ensures ValidExpansion(query, Expansions(api, query), queries)
    ensures calls == [GenerateCall(GenerationContents(ExpandPrompt(query), ExpandSystem))]
  {
    var prompt := ExpandPrompt(query);
    var variationsText := GenerateText(api, prompt, ExpandSystem);
    calls := [GenerateCall(GenerationContents(prompt, ExpandSystem))];
    queries := ListFirstFour(Pool(query, Variations(variationsText)));
  }

  lemma {:induction false} DistinctCard<T>(s: seq<T>)
    requires Distinct(s)
    ensures |set x | x in s| == |s|
  {
    if s != [] {
      var n := |s| - 1;
      DistinctCard(s[..n]);
      assert (set x | x in s) == (set x | x in s[..n]) + {s[n]};
      assert s[n] !in (set x | x in s[..n]);
    }
  }

  /** With at most four distinct candidates, every one of them is searched, the original query included. */
  lemma ExpansionKeepsAllWhenFew(query: string, variations: seq<string>, r: seq<string>)
    requires ValidExpansion(query, variations, r)
    requires |Pool(query, variations)| <= 4
    ensures query in r
    ensures forall v :: v in variations ==> v in r
  {
    var pool := Pool(query, variations);
    var listed := set x | x in r;
    DistinctCard(r);
    assert listed <= pool;
    assert |pool - listed| == 0;
    assert listed == pool;
    assert forall v :: v in variations ==> v in pool;
  }

  /** With five distinct candidates, a listing that drops the original query is possible. */
  lemma ExpansionMayDropQuery()
    ensures ValidExpansion("q", ["a", "b", "c", "d"], ["a", "b", "c", "d"])
    ensures "q" !in ["a", "b", "c", "d"]
  {
    var p := Pool("q", ["a", "b", "c", "d"]);
    assert p == {"q", "a", "b", "c", "d"};
  }

  // ---------------------------------------------------------------- retrieve

  /** `persona and persona != "default"`: the chunk list is filtered. */
  predicate Filters(persona: Option<string>) {
    persona.Some? && persona.value != "" && persona.value != "default"
  }

  /** A chunk the persona `p` may use: its own, and the general ones. */
  predicate Keeps(c: Chunk, p: string) {
    c.info.persona == Some(p) || c.info.persona == Some("general")
  }

  /** The comprehension selecting the persona's chunks, in stored order. */
  function KeepPersona(chunks: seq<Chunk>, p: string): (r: seq<Chunk>)
    ensures forall c :: c in r <==> c in chunks && Keeps(c, p)
  {
    if chunks == [] then []
    else
      var n := |chunks| - 1;
      assert chunks == chunks[..n] + [chunks[n]];
      KeepPersona(chunks[..n], p) + (if Keeps(chunks[n], p) then [chunks[n]] else [])
  }

  /** The chunks `retrieve` scores. */
  function TopicChunks(chunks: seq<Chunk>, persona: Option<string>): (r: seq<Chunk>)
    ensures !Filters(persona) ==> r == chunks
    ensures Filters(persona) ==> forall c :: c in r <==> c in chunks && Keeps(c, persona.value)
  {
    if Filters(persona) then KeepPersona(chunks, persona.value) else chunks
  }

  function ChunkIds(cs: seq<Chunk>): set<string> {
    set c | c in cs :: c.info.id
  }

  function Infos(cs: seq<Chunk>): set<ChunkInfo> {
    set c | c in cs :: c.info
  }

  function Ids(found: seq<ScoredChunk>): set<string> {
    set x | x in found :: x.info.id
  }

  predicate DistinctIds(found: seq<ScoredChunk>) {
    forall i, j :: 0 <= i < j < |found| ==> found[i].info.id != found[j].info.id
  }

  /**
   * The inner loop of `retrieve` for one query embedding `qv`: every chunk whose
   * id is not yet in `seen` is appended with its score, and its id is marked.
   */
  function Scan(topic: seq<Chunk>, qv: seq<real>, sim: (seq<real>, seq<real>) -> real,
                found: seq<ScoredChunk>, seen: set<string>): (seq<ScoredChunk>, set<string>)
    decreases |topic|
  {
    if topic == [] then (found, seen)
    else
      var c := topic[0];
      if c.info.id in seen then Scan(topic[1..], qv, sim, found, seen)
      else Scan(topic[1..], qv, sim, found + [ScoredChunk(c.info, sim(qv, c.embedding))], seen + {c.info.id})
  }

  /** The outer loop of `retrieve`: a query whose embedding fails is passed over. */
  function Gather(topic: seq<Chunk>, api: Api, queries: seq<string>,
                  found: seq<ScoredChunk>, seen: set<string>): seq<ScoredChunk>
    decreases |queries|
  {
    if queries == [] then found
    else match api.embed(queries[0])
      case None => Gather(topic, api, queries[1..], found, seen)
      case Some(qv) =>
        var next := Scan(topic, qv, api.similarity, found, seen);
        Gather(topic, api, queries[1..], next.0, next.1)
  }

  lemma IdsAppend(found: seq<ScoredChunk>, x: ScoredChunk)
    ensures Ids(found + [x]) == Ids(found) + {x.info.id}
  {
    assert forall y :: y in found + [x] <==> y in found || y == x;
  }

  lemma ChunkIdsCons(topic: seq<Chunk>)
    requires topic != []
    ensures ChunkIds(topic) == {topic[0].info.id} + ChunkIds(topic[1..])
    ensures Infos(topic) == {topic[0].info} + Infos(topic[1..])
  {
    assert forall c :: c in topic <==> c == topic[0] || c in topic[1..];
  }

  /**
   * What one scan does: it only appends, it marks every id it meets, each
   * appended entry comes from a scanned chunk, and it keeps ids unique.
   */
  lemma {:induction false} ScanFacts(topic: seq<Chunk>, qv: seq<real>, sim: (seq<real>, seq<real>) -> real,
                                     found: seq<ScoredChunk>, seen: set<string>)
    ensures var r := Scan(topic, qv, sim, found, seen);
            && found <= r.0
            && r.1 == seen + ChunkIds(topic)
            && (forall x :: x in r.0 ==> x in found || x.info in Infos(topic))
            && (seen == Ids(found) && DistinctIds(found) ==> r.1 == Ids(r.0) && DistinctIds(r.0))
    decreases |topic|
  {
    if topic != [] {
      var c := topic[0];
      ChunkIdsCons(topic);
      if c.info.id in seen {
        ScanFacts(topic[1..], qv, sim, found, seen);
      } else {
        var x := ScoredChunk(c.info, sim(qv, c.embedding));
        var found' := found + [x];
        ScanFacts(topic[1..], qv, sim, found', seen + {c.info.id});
        IdsAppend(found, x);
        if seen == Ids(found) && DistinctIds(found) {
          forall i, j | 0 <= i < j < |found'| ensures found'[i].info.id != found'[j].info.id {
            if j == |found| {
              assert found[i] in found;
            }
          }
        }
      }
    }
  }

  /** A scan over chunks whose ids are all marked changes nothing. */
  lemma {:induction false} ScanAllSeen(topic: seq<Chunk>, qv: seq<real>, sim: (seq<real>, seq<real>) -> real,
                                       found: seq<ScoredChunk>, seen: set<string>)
    requires ChunkIds(topic) <= seen
    ensures Scan(topic, qv, sim, found, seen) == (found, seen)
    decreases |topic|
  {
    if topic != [] {
      ChunkIdsCons(topic);
      ScanAllSeen(topic[1..], qv, sim, found, seen);
    }
  }

  /** Once every topic id is marked, the remaining queries add nothing. */
  lemma {:induction false} GatherAllSeen(topic: seq<Chunk>, api: Api, queries: seq<string>,
                                         found: seq<ScoredChunk>, seen: set<string>)
    requires ChunkIds(topic) <= seen
    ensures Gather(topic, api, queries, found, seen) == found
    decreases |queries|
  {
    if queries != [] {
      match api.embed(queries[0])
      case None =>
        GatherAllSeen(topic, api, queries[1..], found, seen);
      case Some(qv) =>
        ScanAllSeen(topic, qv, api.similarity, found, seen);
        GatherAllSeen(topic, api, queries[1..], found, seen);
    }
  }

  /** The gathered entries come from the topic chunks, and their ids are unique. */
  lemma {:induction false} GatherFacts(topic: seq<Chunk>, api: Api, queries: seq<string>,
                                       found: seq<ScoredChunk>, seen: set<string>)
    requires seen == Ids(found) && DistinctIds(found)
    ensures var r := Gather(topic, api, queries, found, seen);
            && DistinctIds(r)
            && (forall x :: x in r ==> x in found || x.info in Infos(topic))
    decreases |queries|
  {
    if queries != [] {
      match api.embed(queries[0])
      case None =>
        GatherFacts(topic, api, queries[1..], found, seen);
      case Some(qv) =>
        var next := Scan(topic, qv, api.similarity, found, seen);
        ScanFacts(topic, qv, api.similarity, found, seen);
        GatherFacts(topic, api, queries[1..], next.0, next.1);
    }
  }

  /** A query whose embedding fails is skipped and the others are processed as without it. */
  lemma {:induction false} FailedQuerySkipped(topic: seq<Chunk>, api: Api, before: seq<string>, q: string,
                                              after: seq<string>, found: seq<ScoredChunk>, seen: set<string>)
    requires api.embed(q).None?
    ensures Gather(topic, api, before + [q] + after, found, seen) == Gather(topic, api, before + after, found, seen)
    decreases |before|
  {
    if before == [] {
      assert before + [q] + after == [q] + after;
      assert before + after == after;
      assert ([q] + after)[0] == q && ([q] + after)[1..] == after;
    } else {
      assert (before + [q] + after)[0] == before[0] && (before + after)[0] == before[0];
      assert (before + [q] + after)[1..] == before[1..] + [q] + after;
      assert (before + after)[1..] == before[1..] + after;
      match api.embed(before[0])
      case None =>
        FailedQuerySkipped(topic, api, before[1..], q, after, found, seen);
      case Some(qv) =>
        var next := Scan(topic, qv, api.similarity, found, seen);
        FailedQuerySkipped(topic, api, before[1..], q, after, next.0, next.1);
    }
  }

  lemma {:induction false} FailedPrefixSkipped(topic: seq<Chunk>, api: Api, failed: seq<string>, rest: seq<string>,
                                               found: seq<ScoredChunk>, seen: set<string>)
    requires forall i :: 0 <= i < |failed| ==> api.embed(failed[i]).None?
    ensures Gather(topic, api, failed + rest, found, seen) == Gather(topic, api, rest, found, seen)
    decreases |failed|
  {
    if failed != [] {
      assert (failed + rest)[0] == failed[0];
      assert (failed + rest)[1..] == failed[1..] + rest;
      assert api.embed(failed[0]).None?;
      assert forall i :: 0 <= i < |failed[1..]| ==> failed[1..][i] == failed[i + 1];
      FailedPrefixSkipped(topic, api, failed[1..], rest, found, seen);
    } else {
      assert failed + rest == rest;
    }
  }

  /**
   * Every chunk is scored by the first query whose embedding succeeds: that scan
   * marks all topic ids, so later queries add nothing and change no score.
   */
  lemma FirstEmbeddedQueryScores(topic: seq<Chunk>, api: Api, failed: seq<string>, q: string, rest: seq<string>)
    requires forall i :: 0 <= i < |failed| ==> api.embed(failed[i]).None?
    requires api.embed(q).Some?
    ensures Gather(topic, api, failed + [q] + rest, [], {})
            == Scan(topic, api.embed(q).value, api.similarity, [], {}).0
  {
    assert failed + [q] + rest == failed + ([q] + rest);
    FailedPrefixSkipped(topic, api, failed, [q] + rest, [], {});
    var next := Scan(topic, api.embed(q).value, api.similarity, [], {});
    ScanFacts(topic, api.embed(q).value, api.similarity, [], {});
    assert ([q] + rest)[1..] == rest;
    GatherAllSeen(topic, api, rest, next.0, next.1);
  }

  predicate SortedByScore(s: seq<ScoredChunk>) {
    forall i, j :: 0 <= i < j < |s| ==> s[i].score >= s[j].score
  }

  /** Inserts `x` after every entry scoring at least as high (a stable descending insertion). */
  function InsertByScore(x: ScoredChunk, s: seq<ScoredChunk>): (r: seq<ScoredChunk>)
    ensures |r| == |s| + 1
    ensures multiset(r) == multiset(s) + multiset{x}
  {
    if s == [] then [x]
    else if s[0].score < x.score then [x] + s
    else
      assert s == [s[0]] + s[1..];
      [s[0]] + InsertByScore(x, s[1..])
  }

  /** A list headed by `a` is sorted exactly when its tail is and nothing in it outscores `a`. */
  lemma SortedCons(a: ScoredChunk, t: seq<ScoredChunk>)
    ensures SortedByScore([a] + t) <==> SortedByScore(t) && forall i :: 0 <= i < |t| ==> t[i].score <= a.score
  {
    var s := [a] + t;
    assert forall i :: 0 <= i < |t| ==> s[i + 1] == t[i];
    if SortedByScore(s) {
      forall i, j | 0 <= i < j < |t| ensures t[i].score >= t[j].score {
        assert s[i + 1].score >= s[j + 1].score;
      }
      forall i | 0 <= i < |t| ensures t[i].score <= a.score {
        assert s[0].score >= s[i + 1].score;
      }
    }
    if SortedByScore(t) && forall i :: 0 <= i < |t| ==> t[i].score <= a.score {
      forall i, j | 0 <= i < j < |s| ensures s[i].score >= s[j].score {
        if i > 0 {
          assert s[i] == t[i - 1];
        }
      }
    }
  }

  /** Inserting keeps every score under a bound that `x` and `s` respect. */
  lemma {:induction false} InsertBounded(x: ScoredChunk, s: seq<ScoredChunk>, b: real)
    requires x.score <= b
    requires forall i :: 0 <= i < |s| ==> s[i].score <= b
    ensures forall i :: 0 <= i < |InsertByScore(x, s)| ==> InsertByScore(x, s)[i].score <= b
    decreases |s|
  {
    var r := InsertByScore(x, s);
    if s == [] {
    } else if s[0].score < x.score {
      assert forall i :: 0 < i < |r| ==> r[i] == s[i - 1];
    } else {
      var t := InsertByScore(x, s[1..]);
      InsertBounded(x, s[1..], b);
      assert forall i :: 0 < i < |r| ==> r[i] == t[i - 1];
    }
  }

  lemma {:induction false} InsertSorted(x: ScoredChunk, s: seq<ScoredChunk>)
    requires SortedByScore(s)
    ensures SortedByScore(InsertByScore(x, s))
    decreases |s|
  {
    if s == [] {
    } else if s[0].score < x.score {
      assert forall i :: 0 <= i < |s| ==> s[i].score <= s[0].score;
      SortedCons(x, s);
    } else {
      var rest := s[1..];
      assert s == [s[0]] + rest;
      SortedCons(s[0], rest);
      InsertSorted(x, rest);
      InsertBounded(x, rest, s[0].score);
      SortedCons(s[0], InsertByScore(x, rest));
    }
  }

  /** Entries with the same members carry the same ids. */
  lemma IdsOfMembers(a: seq<ScoredChunk>, b: seq<ScoredChunk>, extra: set<ScoredChunk>)
    requires forall y :: y in a <==> y in b || y in extra
    ensures Ids(a) == Ids(b) + (set y | y in extra :: y.info.id)
  {
  }

  lemma DistinctIdsSnoc(a: seq<ScoredChunk>, x: ScoredChunk)
    ensures DistinctIds(a + [x]) <==> DistinctIds(a) && x.info.id !in Ids(a)
  {
    var s := a + [x];
    assert forall i :: 0 <= i < |a| ==> s[i] == a[i];
    assert s[|a|] == x;
    if DistinctIds(s) {
      forall i, j | 0 <= i < j < |a| ensures a[i].info.id != a[j].info.id {
        assert s[i] == a[i] && s[j] == a[j];
      }
      forall y | y in a ensures y.info.id != x.info.id {
        var i :| 0 <= i < |a| && a[i] == y;
        assert s[i] == y;
      }
    }
    if DistinctIds(a) && x.info.id !in Ids(a) {
      forall i, j | 0 <= i < j < |s| ensures s[i].info.id != s[j].info.id {
        if j == |a| {
          assert a[i] in a;
        } else {
          assert s[i] == a[i] && s[j] == a[j];
        }
      }
    }
  }

  lemma DistinctIdsCons(x: ScoredChunk, t: seq<ScoredChunk>)
    ensures DistinctIds([x] + t) <==> DistinctIds(t) && x.info.id !in Ids(t)
  {
    var s := [x] + t;
    assert forall i :: 0 <= i < |t| ==> s[i + 1] == t[i];
    assert s[0] == x;
    if DistinctIds(s) {
      forall i, j | 0 <= i < j < |t| ensures t[i].info.id != t[j].info.id {
        assert s[i + 1] == t[i] && s[j + 1] == t[j];
      }
      forall y | y in t ensures y.info.id != x.info.id {
        var i :| 0 <= i < |t| && t[i] == y;
        assert s[i + 1] == y;
      }
    }
    if DistinctIds(t) && x.info.id !in Ids(t) {
      forall i, j | 0 <= i < j < |s| ensures s[i].info.id != s[j].info.id {
        if i == 0 {
          assert t[j - 1] in t;
        } else {
          assert s[i] == t[i - 1] && s[j] == t[j - 1];
        }
      }
    }
  }

  lemma {:induction false} InsertDistinct(x: ScoredChunk, s: seq<ScoredChunk>)
    requires DistinctIds(s) && x.info.id !in Ids(s)
    ensures DistinctIds(InsertByScore(x, s))
    decreases |s|
  {
    if s == [] {
    } else if s[0].score < x.score {
      DistinctIdsCons(x, s);
    } else {
      var rest := s[1..];
      assert s == [s[0]] + rest;
      DistinctIdsCons(s[0], rest);
      IdsOfMembers(s, rest, {s[0]});
      InsertDistinct(x, rest);
      var t := InsertByScore(x, rest);
      assert forall y :: y in t <==> y in rest || y in {x} by {
        assert forall y :: y in t <==> y in multiset(rest) + multiset{x};
      }
      IdsOfMembers(t, rest, {x});
      DistinctIdsCons(s[0], t);
    }
  }

  /** `list.sort(key=score, reverse=True)`: a stable sort into non-increasing score. */
  function SortByScore(s: seq<ScoredChunk>): (r: seq<ScoredChunk>)
    ensures |r| == |s|
    ensures multiset(r) == multiset(s)
  {
    if s == [] then []
    else
      var n := |s| - 1;
      assert s == s[..n] + [s[n]];
      InsertByScore(s[n], SortByScore(s[..n]))
  }

  lemma {:induction false} SortFacts(s: seq<ScoredChunk>)
    ensures SortedByScore(SortByScore(s))
    ensures DistinctIds(s) ==> DistinctIds(SortByScore(s))
    decreases |s|
  {
    if s != [] {
      var n := |s| - 1;
      var init := s[..n];
      assert s == init + [s[n]];
      SortFacts(init);
      InsertSorted(s[n], SortByScore(init));
      if DistinctIds(s) {
        DistinctIdsSnoc(init, s[n]);
        var sorted := SortByScore(init);
        assert forall y :: y in sorted <==> y in init || y in {} by {
          assert forall y :: y in sorted <==> y in multiset(init);
        }
        IdsOfMembers(sorted, init, {});
        InsertDistinct(s[n], sorted);
      }
    }
  }

  /** Python's `s[:k]`: a negative `k` drops that many from the end. */
  function PyTake<T>(s: seq<T>, k: int): (r: seq<T>)
    ensures r <= s
    ensures k >= 0 ==> |r| == Min(k, |s|)
    ensures k < 0 ==> |r| == Max(0, |s| + k)
  {
    if k >= 0 then s[..Min(k, |s|)] else s[..Max(0, |s| + k)]
  }

  /** The list `retrieve` returns on an engine with a client. */
  function Retrieved(engine: Engine, api: Api, queries: seq<string>, topK: int, persona: Option<string>): seq<ScoredChunk> {
    PyTake(SortByScore(Gather(TopicChunks(engine.chunks, persona), api, queries, [], {})), topK)
  }

  /** The embedding calls made for the given queries, in order. */
  function EmbedCalls(queries: seq<string>): (r: seq<ApiCall>)
    ensures |r| == |queries|
    ensures forall i :: 0 <= i < |queries| ==> r[i] == EmbedCall(queries[i])
  {
    if queries == [] then [] else EmbedCalls(queries[..|queries| - 1]) + [EmbedCall(queries[|queries| - 1])]
  }

  /** `retrieve`: the nested loops over queries and chunks, then the sort and the cut. */
  method Retrieve(engine: Engine, api: Api, queries: seq<string>, topK: int, persona: Option<string>)
    returns (r: Result<seq<ScoredChunk>, PyError>, calls: seq<ApiCall>)
    ensures !engine.hasClient ==> r == Err(ValueError(NoClientMessage)) && calls == []
    ensures engine.hasClient ==> r == Ok(Retrieved(engine, api, queries, topK, persona)) && calls == EmbedCalls(queries)
  {
    if !engine.hasClient {
      return Err(ValueError(NoClientMessage)), [];
    }
    var found: seq<ScoredChunk> := [];
    var seen: set<string> := {};
    var topic := TopicChunks(engine.chunks, persona);
    calls := [];
    for qi := 0 to |queries|
      invariant calls == EmbedCalls(queries[..qi])
      invariant Gather(topic, api, queries[qi..], found, seen) == Gather(topic, api, queries, [], {})
    {
      var q := queries[qi];
      assert queries[..qi + 1][..qi] == queries[..qi];
      calls := calls + [EmbedCall(q)];
      assert queries[qi..][1..] == queries[qi + 1..];
      var embedding := api.embed(q);
      if embedding.Some? {
        var qv := embedding.value;
        ghost var found0, seen0 := found, seen;
        for ci := 0 to |topic|
          invariant Scan(topic[ci..], qv, api.similarity, found, seen) == Scan(topic, qv, api.similarity, found0, seen0)
        {
          var chunk := topic[ci];
          var score := api.similarity(qv, chunk.embedding);
          assert topic[ci..][1..] == topic[ci + 1..];
          if chunk.info.id !in seen {
            found := found + [ScoredChunk(chunk.info, score)];
            seen := seen + {chunk.info.id};
          }
        }
      }
    }
    assert queries[..|queries|] == queries;
    r := Ok(PyTake(SortByScore(found), topK));
  }

  /**
   * The properties of the retrieved list: unique ids, non-increasing scores, at
   * most `topK` entries, and each entry the fields of a chunk the persona may use.
   */
  lemma RetrievedFacts(engine: Engine, api: Api, queries: seq<string>, topK: int, persona: Option<string>)
    ensures var r := Retrieved(engine, api, queries, topK, persona);
            && DistinctIds(r)
            && SortedByScore(r)
            && (topK >= 0 ==> |r| <= topK)
            && (forall x :: x in r ==> x.info in Infos(engine.chunks))
            && (Filters(persona) ==> forall x :: x in r ==>
                  x.info.persona == Some(persona.value) || x.info.persona == Some("general"))
  {
    var topic := TopicChunks(engine.chunks, persona);
    var g := Gather(topic, api, queries, [], {});
    GatherFacts(topic, api, queries, [], {});
    SortFacts(g);
    var sorted := SortByScore(g);
    var r := Retrieved(engine, api, queries, topK, persona);
    assert r == sorted[..|r|];
    forall i, j | 0 <= i < j < |r| ensures r[i].info.id != r[j].info.id && r[i].score >= r[j].score {
      assert r[i] == sorted[i] && r[j] == sorted[j];
    }
    forall x | x in r ensures x.info in Infos(engine.chunks)
      && (Filters(persona) ==> x.info.persona == Some(persona.value) || x.info.persona == Some("general"))
    {
      assert x in sorted;
      assert x in multiset(g);
      var c :| c in topic && c.info == x.info;
      assert c in engine.chunks;
    }
  }

  // ---------------------------------------------------------------- chat

  const NavalStyle :=
      ("\n            " + "STYLE: Naval " + "Ravikant.\n")
    + ("            - " + "Be concise, direct, " + "and philosophical.\n")
    + ("            - " + "Focus on wealth " + "creation (assets) " + "vs status games.\n")
    + ("            - " + "\"Wealth is assets " + "that earn while " + "you sleep.\"\n")
    + ("            - " + "Explain things " + "simply but profoundly.\n")
    + ("            - " + "AVOID jargon " + "unless necessary.\n " + "           ")
  const RayStyle :=
      ("\n            " + "STYLE: Ray Dalio.\n")
    + ("            - " + "Think in 'Principles'.\n")
    + ("            - " + "View the economy " + "as a machine.\n")
    + ("            - " + "Be radically " + "transparent and " + "data-driven.\n")
    + ("            - " + "\"Pain + Reflection " + "= Progress\".\n")
    + ("            - " + "Break down complex " + "concepts into " + "cause-and-effect ")
    + "steps.\n            "
  const BuffettStyle :=
      ("\n            " + "STYLE: Warren " + "Buffett.\n")
    + ("            - " + "Use folksy wisdom " + "and simple analogies " + "(e.g., ")
    + "hamburgers, baseball).\n"
    + ("            - " + "Focus on long-term " + "value and patience.\n")
    + ("            - " + "\"Rule No. 1: " + "Never lose money.\"\n")
    + ("            - " + "Speak like a " + "wise, patient " + "grandfather explaining ")
    + ("to a child.\n " + "           ")

  /** The style block chosen by `persona.lower()`; any other persona adds none. */
  function PersonaStyle(texts: AnswerTexts, persona: string): (r: string)
    ensures Lower(persona) == "naval" ==> r == texts.naval
    ensures Lower(persona) == "ray" ==> r == texts.ray
    ensures Lower(persona) == "buffett" ==> r == texts.buffett
    ensures Lower(persona) !in {"naval", "ray", "buffett"} ==> r == ""
  {
    var p := Lower(persona);
    if p == "naval" then texts.naval
    else if p == "ray" then texts.ray
    else if p == "buffett" then texts.buffett
    else ""
  }

  const AnswerInstructions :=
      ("\n\n        STRICT " + "GUARDRAILS:\n")
    + ("        1. DO " + "NOT give personalized " + "financial advice.\n")
    + ("        2. DO " + "NOT recommend " + "specific stocks " + "or crypto.\n")
    + ("        3. DO " + "NOT promise specific " + "returns.\n")
    + ("        4. Suggest " + "consulting a " + "professional " + "for specifics.\n")
    + ("        \n    " + "    INSTRUCTIONS:\n")
    + ("        1. **FORMATTING " + "IS CRITICAL**: " + "Output your answer in ")
    + ("the following " + "STRICT Markdown " + "format:\n     " + "      \n")
    + ("           ### " + "\U{1F4A1} The Core Concept\n")
    + ("           (One " + "simple sentence " + "explaining the " + "main idea)\n")
    + ("\n           ### " + "\U{1F463} Step-by-Step " + "Guide\n")
    + ("           1. " + "**Step 1**: ...\n")
    + ("           2. " + "**Step 2**: ...\n")
    + ("           (Keep " + "steps simple, " + "like teaching " + "a 5th grader)\n")
    + ("\n           ### " + "\U{1F3AF} Key Takeaway\n")
    + ("           (A " + "single bold sentence " + "summarizing the " + "advice)\n")
    + "\n"
    + ("        2. **SIMPLICITY**: " + "Avoid jargon. " + "Use emojis occasionally ")
    + "to make it friendly.\n"
    + ("        3. **THINK " + "STEP-BY-STEP**: " + "Analyze the user's " + "intent ")
    + "first.\n"
    + ("        4. Use " + "the retrieved " + "CONTEXT to formulate " + "your answer.\n")
    + ("        5. Prioritize " + "Indian instruments " + "(SIP, PPF, etc.) if ")
    + ("locale is India.\n " + "       ")

  /** The answer prompt texts of the source. */
  const SourceAnswerTexts := AnswerTexts(NavalStyle, RayStyle, BuffettStyle, AnswerInstructions)

  /**
   * `RAGEngine()`: a client exactly when the key is set and non-empty, and the
   * chunks of the embeddings file, or none when there is no such file.
   */
  function NewEngine(apiKey: Option<string>, stored: Option<seq<Chunk>>): (e: Engine)
    ensures e.hasClient <==> apiKey.Some? && apiKey.value != ""
    ensures stored.None? ==> e.chunks == []
    ensures stored.Some? ==> e.chunks == stored.value
    ensures e.texts == SourceAnswerTexts
  {
    Engine(apiKey.Some? && apiKey.value != "", stored.GetOr([]), SourceAnswerTexts)
  }

  /** `locale if locale else 'India'`. */
  function Place(locale: Option<string>): (r: string)
    ensures locale.None? || locale.value == "" ==> r == "India"
    ensures locale.Some? && locale.value != "" ==> r == locale.value
  {
    if locale.Some? && locale.value != "" then locale.value else "India"
  }

  /** The answer's system prompt: the place, the persona's style, and the closing instructions. */
  function ChatSystem(texts: AnswerTexts, locale: Option<string>, persona: string): (r: string)
    ensures r != ""
  {
    ("You are a helpful " + "and responsible " + "financial education " + "assistant for " + "users in ") + Place(locale)
    + ".\n        \n        " + PersonaStyle(texts, persona) + texts.instructions
  }

  /** One source block of the context text. */
  function SourceBlock(c: ScoredChunk): string {
    "--- Source: " + c.info.title.GetOr("Unknown") + " (Section: " + c.info.section.GetOr("General") + ") ---\n"
    + c.info.text
  }

  /** The source blocks, separated by blank lines. */
  function ContextText(sources: seq<ScoredChunk>): string {
    Join(seq(|sources|, i requires 0 <= i < |sources| => SourceBlock(sources[i])), "\n\n")
  }

  function ChatPrompt(contextText: string, standalone: string, query: string): string {
    "CONTEXT:\n        " + contextText + ("\n        \n   " + "     USER QUESTION:\n " + "       ") + standalone
    + " (Original: " + query + ")\n        "
  }

  /** The dictionary `chat` returns. */
  datatype ChatAnswer = ChatAnswer(answer: string, sources: seq<ScoredChunk>)

  /** The number of sources `chat` asks for. */
  const ChatTopK := 5

  /** The answer prompt and system prompt for the given sources. */
  function AnswerContents(texts: AnswerTexts, query: string, standalone: string, locale: Option<string>, persona: string,
                          sources: seq<ScoredChunk>): seq<string> {
    GenerationContents(ChatPrompt(ContextText(sources), standalone, query), ChatSystem(texts, locale, persona))
  }

  /** The answer generated from `sources`, returned with them. */
  function Answer(texts: AnswerTexts, api: Api, query: string, standalone: string, locale: Option<string>, persona: string,
                  sources: seq<ScoredChunk>): (r: ChatAnswer)
    ensures r.sources == sources
    ensures api.generate(AnswerContents(texts, query, standalone, locale, persona, sources)).GenerationFailed? ==> r.answer == ""
  {
    ChatAnswer(GenerateText(api, ChatPrompt(ContextText(sources), standalone, query), ChatSystem(texts, locale, persona)),
               sources)
  }

  /**
   * What `chat` returns once it searched with `searched`: the sources
   * retrieved for them, and the answer generated from them, or the error
   * `persona.lower()` raises on a `None` persona.
   */
  function ChatOutcome(engine: Engine, api: Api, query: string, history: Option<seq<HistoryEntry>>,
                       locale: Option<string>, persona: Option<string>, searched: seq<string>): (r: Result<ChatAnswer, PyError>)
    ensures persona.None? <==> r == Err(AttributeError(NoneLowerMessage))
    ensures r.Ok? ==> r.value.sources == Retrieved(engine, api, searched, ChatTopK, persona)
  {
    if persona.None? then Err(AttributeError(NoneLowerMessage))
    else Ok(Answer(engine.texts, api, query, Contextualized(api, query, history), locale, persona.value,
                   Retrieved(engine, api, searched, ChatTopK, persona)))
  }

  /** The answer call, when there is one. */
  function AnswerCalls(texts: AnswerTexts, query: string, standalone: string, locale: Option<string>, persona: Option<string>,
                       sources: seq<ScoredChunk>): (r: seq<ApiCall>)
    ensures persona.None? <==> r == []
    ensures |r| <= 1
  {
    if persona.None? then [] else [GenerateCall(AnswerContents(texts, query, standalone, locale, persona.value, sources))]
  }

  /** The expansion call, unless in lite mode. */
  function ExpandCalls(standalone: string, liteMode: bool): (r: seq<ApiCall>)
    ensures liteMode <==> r == []
  {
    if liteMode then [] else [GenerateCall(GenerationContents(ExpandPrompt(standalone), ExpandSystem))]
  }

  /**
   * The calls `chat` makes once it has the standalone question, the search
   * queries and the sources: the rewrite, the expansion unless in lite mode,
   * one embedding per query, and the answer.
   */
  function ChatTrace(texts: AnswerTexts, query: string, history: Option<seq<HistoryEntry>>, standalone: string,
                     locale: Option<string>, persona: Option<string>, liteMode: bool, searched: seq<string>,
                     sources: seq<ScoredChunk>): seq<ApiCall> {
    ContextCalls(query, history) + ExpandCalls(standalone, liteMode) + EmbedCalls(searched)
    + AnswerCalls(texts, query, standalone, locale, persona, sources)
  }

  /** `chat`. `searched` is the list of search queries it logs. */
  method Chat(engine: Engine, api: Api, query: string, history: Option<seq<HistoryEntry>>,
              locale: Option<string>, persona: Option<string>, liteMode: bool)
    returns (r: Result<ChatAnswer, PyError>, searched: seq<string>, calls: seq<ApiCall>)
    ensures !engine.hasClient ==> r == Err(ValueError(NoClientMessage)) && searched == [] && calls == []
    ensures engine.hasClient ==>
              var standalone := Contextualized(api, query, history);
              && (liteMode ==> searched == [standalone])
              && (!liteMode ==> ValidExpansion(standalone, Expansions(api, standalone), searched))
              && r == ChatOutcome(engine, api, query, history, locale, persona, searched)
              && calls == ChatTrace(engine.texts, query, history, standalone, locale, persona, liteMode, searched,
                                    Retrieved(engine, api, searched, ChatTopK, persona))
  {
    if !engine.hasClient {
      return Err(ValueError(NoClientMessage)), [], [];
    }
    var standalone, contextCalls := ContextualizeQuery(api, query, history);
    var expandCalls: seq<ApiCall> := [];
    if liteMode {
      searched := [standalone];
    } else {
      searched, expandCalls := ExpandQuery(api, standalone);
    }
    var retrieved, retrieveCalls := Retrieve(engine, api, searched, ChatTopK, persona);
    var sources := retrieved.value;
    if persona.None? {
      r := Err(AttributeError(NoneLowerMessage));
    } else {
      r := Ok(Answer(engine.texts, api, query, standalone, locale, persona.value, sources));
    }
    calls := contextCalls + expandCalls + retrieveCalls + AnswerCalls(engine.texts, query, standalone, locale, persona, sources);
  }

  /** The sources of an answer are at most five distinct chunks, best score first. */
  lemma ChatSources(engine: Engine, api: Api, query: string, history: Option<seq<HistoryEntry>>,
                    locale: Option<string>, persona: Option<string>, searched: seq<string>)
    ensures var r := ChatOutcome(engine, api, query, history, locale, persona, searched);
            r.Ok? ==> |r.value.sources| <= ChatTopK && DistinctIds(r.value.sources) && SortedByScore(r.value.sources)
  {
    RetrievedFacts(engine, api, searched, ChatTopK, persona);
  }

  /** In lite mode one embedding call is made, for the standalone question, and no expansion. */
  lemma LiteModeSearchesOnce(texts: AnswerTexts, query: string, history: Option<seq<HistoryEntry>>, standalone: string,
                             locale: Option<string>, persona: Option<string>, sources: seq<ScoredChunk>)
    ensures var t := ChatTrace(texts, query, history, standalone, locale, persona, true, [standalone], sources);
            && t[..|ContextCalls(query, history)| + 1]
               == ContextCalls(query, history) + [EmbedCall(standalone)]
            && |t| == |ContextCalls(query, history)| + 1 + (if persona.None? then 0 else 1)
  {
    var before := ContextCalls(query, history);
    var t := ChatTrace(texts, query, history, standalone, locale, persona, true, [standalone], sources);
    assert EmbedCalls([standalone]) == [EmbedCall(standalone)];
    assert t == (before + [EmbedCall(standalone)]) + AnswerCalls(texts, query, standalone, locale, persona, sources);
  }
}
