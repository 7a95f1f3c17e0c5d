/**
 * The offline ingestion script (fin_rag_backend/ingest.py): it needs an API
 * key, scans the data directory, reads every `.json` file as a list of
 * articles, tags each article with a persona taken from the file name,
 * embeds `title + "\n" + content`, and collects one chunk per article whose
 * embedding succeeded and which has an id and a section.
 *
 * The directory listing, the parsed files and the embedding call are
 * parameters; `print`, `time.sleep` and writing `embeddings.json` are not
 * modelled.
 */
module Ingest {
  import opened Wrappers
  import opened Text
  import opened Corpus

  // ---------------------------------------------------------------- inputs

  /** A parsed article; `None` is a key the JSON object does not have. */
  datatype Article = Article(
    id: Option<string>,
    title: Option<string>,
    section: Option<string>,
    content: Option<string>)

  /** A directory entry: its name and, for a file `json.load` can read, its articles. */
  datatype DataFile = DataFile(name: string, articles: Option<seq<Article>>)

  /** The data directory: absent, or its entries in `os.listdir` order. */
  datatype DataDir = NoDataDir | Listing(files: seq<DataFile>)

  /** What escapes `load_and_chunk_data`. */
  datatype IngestError =
    | ValueError(message: string)
    | JsonError(file: string)
    | KeyError(key: string)

  const NoKeyMessage := "GEMINI_API_KEY not found in .env"

  // ---------------------------------------------------------------- persona tag

  /** The persona a file's articles are tagged with, decided on the lower-cased name. */
  function PersonaTag(filename: string): (r: string)
    ensures r == "naval" || r == "ray" || r == "buffett" || r == "general"
  {
    var lower := Lower(filename);
    if Contains(lower, "naval") then "naval"
    else if Contains(lower, "ray") then "ray"
    else if Contains(lower, "buffett") then "buffett"
    else "general"
  }

  /** Each tag is given exactly when its word is in the name and no earlier word is. */
  lemma PersonaPrecedence(filename: string)
    ensures var lower := Lower(filename);
      && (PersonaTag(filename) == "naval" <==> Contains(lower, "naval"))
      && (PersonaTag(filename) == "ray" <==> !Contains(lower, "naval") && Contains(lower, "ray"))
      && (PersonaTag(filename) == "buffett"
          <==> !Contains(lower, "naval") && !Contains(lower, "ray") && Contains(lower, "buffett"))
      && (PersonaTag(filename) == "general"
          <==> !Contains(lower, "naval") && !Contains(lower, "ray") && !Contains(lower, "buffett"))
  {
  }

  /** A name with both words is tagged with the first in the order naval, ray, buffett. */
  lemma NavalBeatsRay()
    ensures PersonaTag("Naval_vs_Ray.json") == "naval"
  {
    var lower := Lower("Naval_vs_Ray.json");
    assert lower[0..5] == "naval";
    assert OccursAt(lower, "naval", 0);
    ContainsIff(lower, "naval");
  }

  // ---------------------------------------------------------------- one article

  /** The text that is embedded: title and content on two lines. */
  function EmbedText(title: string, content: string): (r: string)
    ensures |r| == |title| + 1 + |content|
    ensures r[..|title|] == title && r[|title|] == '\n' && r[|title| + 1..] == content
  {
    title + "\n" + content
  }

  /**
   * The chunk an article with a title and a content yields, if any: `None`
   * when the embedding fails or the id or the section is missing, all of
   * which the `try` block swallows.
   */
  function Kept(name: string, a: Article, embed: string -> Option<seq<real>>): Option<Chunk>
    requires a.title.Some? && a.content.Some?
  {
    var e := embed(EmbedText(a.title.value, a.content.value));
    if e.Some? && a.id.Some? && a.section.Some? then
      Some(Chunk(ChunkInfo(a.id.value, a.title, a.section, Some(name), Some(PersonaTag(name)), a.content.value),
                 e.value))
    else None
  }

  /**
   * One article: the title and then the content are read outside the `try`,
   * so a missing one aborts the whole run; otherwise the article yields its
   * chunk or is skipped.
   */
  function ArticleOutcome(name: string, a: Article, embed: string -> Option<seq<real>>): (r: Result<Option<Chunk>, IngestError>)
    ensures a.title.None? <==> r == Err(KeyError("title"))
    ensures a.title.Some? && a.content.None? <==> r == Err(KeyError("content"))
    ensures r.Ok? <==> a.title.Some? && a.content.Some?
    ensures r.Ok? && r.value.Some? ==>
      var c := r.value.value;
      && a.id == Some(c.info.id) && c.info.title == a.title && c.info.section == a.section
      && a.section.Some? && a.content == Some(c.info.text)
      && c.info.source == Some(name) && c.info.persona == Some(PersonaTag(name))
      && embed(EmbedText(a.title.value, a.content.value)) == Some(c.embedding)
    ensures r.Ok? && r.value.None? <==>
      && a.title.Some? && a.content.Some?
      && (embed(EmbedText(a.title.value, a.content.value)).None? || a.id.None? || a.section.None?)
  {
    if a.title.None? then Err(KeyError("title"))
    else if a.content.None? then Err(KeyError("content"))
    else Ok(Kept(name, a, embed))
  }

  // ---------------------------------------------------------------- the scan, as a specification

  /** The run after the current article list has been folded into `acc`, continuing with `rest`. */
  function Then(res: Result<seq<Chunk>, IngestError>, rest: seq<DataFile>, embed: string -> Option<seq<real>>): Result<seq<Chunk>, IngestError>
    decreases |rest|, 2
  {
    match res
    case Err(e) => Err(e)
    case Ok(acc) => Fold(acc, rest, embed)
  }

  /** The article loop of one file, appending to `acc`. */
  function ArticlesFold(acc: seq<Chunk>, name: string, articles: seq<Article>, embed: string -> Option<seq<real>>): Result<seq<Chunk>, IngestError>
    decreases |articles|
  {
    if articles == [] then Ok(acc)
    else
      match ArticleOutcome(name, articles[0], embed)
      case Err(e) => Err(e)
      case Ok(None) => ArticlesFold(acc, name, articles[1..], embed)
      case Ok(Some(c)) => ArticlesFold(acc + [c], name, articles[1..], embed)
  }

  /** One directory entry: names not ending in `.json` are passed over, an unreadable file aborts. */
  function FileFold(acc: seq<Chunk>, file: DataFile, embed: string -> Option<seq<real>>): Result<seq<Chunk>, IngestError>
  {
    if !EndsWith(file.name, ".json") then Ok(acc)
    else if file.articles.None? then Err(JsonError(file.name))
    else ArticlesFold(acc, file.name, file.articles.value, embed)
  }

  /** The file loop, appending to `acc`. */
  function Fold(acc: seq<Chunk>, files: seq<DataFile>, embed: string -> Option<seq<real>>): Result<seq<Chunk>, IngestError>
    decreases |files|, 1
  {
    if files == [] then Ok(acc) else Then(FileFold(acc, files[0], embed), files[1..], embed)
  }

  /** What `load_and_chunk_data` returns or raises. */
  function Ingested(apiKey: Option<string>, dir: DataDir, embed: string -> Option<seq<real>>): (r: Result<seq<Chunk>, IngestError>)
    ensures apiKey.None? || apiKey == Some("") <==> r == Err(ValueError(NoKeyMessage))
    ensures apiKey.Some? && apiKey != Some("") && dir.NoDataDir? ==> r == Ok([])
  {
    if apiKey.None? || apiKey.value == "" then Err(ValueError(NoKeyMessage))
    else if dir.NoDataDir? then Ok([])
    else
      var r := Fold([], dir.files, embed);
      FoldNoValueError([], dir.files, embed);
      r
  }

  lemma {:induction false} ArticlesNoValueError(acc: seq<Chunk>, name: string, articles: seq<Article>, embed: string -> Option<seq<real>>)
    ensures !ArticlesFold(acc, name, articles, embed).Err? || ArticlesFold(acc, name, articles, embed).error.KeyError?
    decreases |articles|
  {
    if articles != [] {
      ArticlesNoValueError(acc, name, articles[1..], embed);
      var o := ArticleOutcome(name, articles[0], embed);
      if o.Ok? && o.value.Some? {
        ArticlesNoValueError(acc + [o.value.value], name, articles[1..], embed);
      }
    }
  }

  lemma {:induction false} FoldNoValueError(acc: seq<Chunk>, files: seq<DataFile>, embed: string -> Option<seq<real>>)
    ensures !Fold(acc, files, embed).Err? || !Fold(acc, files, embed).error.ValueError?
    decreases |files|
  {
    if files != [] {
      var f := files[0];
      if EndsWith(f.name, ".json") && f.articles.Some? {
        ArticlesNoValueError(acc, f.name, f.articles.value, embed);
      }
      var res := FileFold(acc, f, embed);
      if res.Ok? {
        FoldNoValueError(res.value, files[1..], embed);
      }
    }
  }

  // ---------------------------------------------------------------- the scan, as the script runs it

  /** `load_and_chunk_data`, with the key check of `get_client` first. */
  method LoadAndChunkData(apiKey: Option<string>, dir: DataDir, embed: string -> Option<seq<real>>)
    returns (r: Result<seq<Chunk>, IngestError>)
    ensures r == Ingested(apiKey, dir, embed)
  {
    if apiKey.None? || apiKey.value == "" {
      return Err(ValueError(NoKeyMessage));
    }
    if dir.NoDataDir? {
      return Ok([]);
    }
    var files := dir.files;
    ghost var goal := Fold([], files, embed);
    var allChunks: seq<Chunk> := [];
    var fi := 0;
    while fi < |files|
      invariant 0 <= fi <= |files|
      invariant Fold(allChunks, files[fi..], embed) == goal
    {
      var file := files[fi];
      assert files[fi..][0] == file && files[fi..][1..] == files[fi + 1..];
      if !EndsWith(file.name, ".json") {
        fi := fi + 1;
        continue;
      }
      if file.articles.None? {
        return Err(JsonError(file.name));
      }
      var articles := file.articles.value;
      var ai := 0;
      while ai < |articles|
        invariant 0 <= ai <= |articles|
        invariant Then(ArticlesFold(allChunks, file.name, articles[ai..], embed), files[fi + 1..], embed) == goal
      {
        var article := articles[ai];
        assert articles[ai..][0] == article && articles[ai..][1..] == articles[ai + 1..];
        if article.title.None? {
          return Err(KeyError("title"));
        }
        if article.content.None? {
          return Err(KeyError("content"));
        }
        var textToEmbed := article.title.value + "\n" + article.content.value;
        var personaTag := "general";
        var lower := Lower(file.name);
        if Contains(lower, "naval") {
          personaTag := "naval";
        } else if Contains(lower, "ray") {
          personaTag := "ray";
        } else if Contains(lower, "buffett") {
          personaTag := "buffett";
        }
        var embedding := embed(textToEmbed);
        if embedding.Some? && article.id.Some? && article.section.Some? {
          var chunk := Chunk(ChunkInfo(article.id.value, article.title, article.section, Some(file.name),
                                       Some(personaTag), article.content.value), embedding.value);
          allChunks := allChunks + [chunk];
        }
        ai := ai + 1;
      }
      fi := fi + 1;
    }
    return Ok(allChunks);
  }

  // ---------------------------------------------------------------- what the scan yields

  /** A chunk as the script writes it: every field set, tagged from its `.json` source, embedded from its title and text. */
  predicate WellFormed(c: Chunk, embed: string -> Option<seq<real>>) {
    && c.info.source.Some? && EndsWith(c.info.source.value, ".json")
    && c.info.persona == Some(PersonaTag(c.info.source.value))
    && c.info.title.Some? && c.info.section.Some?
    && embed(EmbedText(c.info.title.value, c.info.text)) == Some(c.embedding)
  }

  lemma {:induction false} ArticlesWellFormed(acc: seq<Chunk>, name: string, articles: seq<Article>, embed: string -> Option<seq<real>>)
    requires EndsWith(name, ".json")
    requires ArticlesFold(acc, name, articles, embed).Ok?
    ensures var out := ArticlesFold(acc, name, articles, embed).value;
      |acc| <= |out| && out[..|acc|] == acc && forall k :: |acc| <= k < |out| ==> WellFormed(out[k], embed)
    decreases |articles|
  {
    if articles != [] {
      var o := ArticleOutcome(name, articles[0], embed);
      if o.value.None? {
        ArticlesWellFormed(acc, name, articles[1..], embed);
      } else {
        var acc' := acc + [o.value.value];
        ArticlesWellFormed(acc', name, articles[1..], embed);
        var out := ArticlesFold(acc', name, articles[1..], embed).value;
        assert out[..|acc|] == out[..|acc'|][..|acc|];
        assert out[|acc|] == acc'[|acc|];
      }
    }
  }

  /**
   * Whatever the script returns extends what was accumulated, and every chunk
   * it adds is well formed.
   */
  lemma {:induction false} FoldWellFormed(acc: seq<Chunk>, files: seq<DataFile>, embed: string -> Option<seq<real>>)
    requires Fold(acc, files, embed).Ok?
    ensures var out := Fold(acc, files, embed).value;
      |acc| <= |out| && out[..|acc|] == acc && forall k :: |acc| <= k < |out| ==> WellFormed(out[k], embed)
    decreases |files|
  {
    if files != [] {
      var f := files[0];
      var res := FileFold(acc, f, embed);
      var mid := res.value;
      if EndsWith(f.name, ".json") {
        ArticlesWellFormed(acc, f.name, f.articles.value, embed);
      }
      FoldWellFormed(mid, files[1..], embed);
      var out := Fold(mid, files[1..], embed).value;
      assert out[..|acc|] == out[..|mid|][..|acc|];
    }
  }

  /** Every chunk the script returns is well formed. */
  lemma IngestedWellFormed(apiKey: Option<string>, dir: DataDir, embed: string -> Option<seq<real>>)
    requires Ingested(apiKey, dir, embed).Ok?
    ensures forall c :: c in Ingested(apiKey, dir, embed).value ==> WellFormed(c, embed)
  {
    if dir.Listing? {
      FoldWellFormed([], dir.files, embed);
    }
  }

  // ---------------------------------------------------------------- the clean run

  /** A readable article list: every article has a title and a content. */
  predicate CleanArticlesOf(articles: seq<Article>) {
    forall m :: 0 <= m < |articles| ==> articles[m].title.Some? && articles[m].content.Some?
  }

  /** A directory entry the script reads without raising. */
  predicate CleanFile(f: DataFile) {
    EndsWith(f.name, ".json") ==> f.articles.Some? && CleanArticlesOf(f.articles.value)
  }

  /** Every `.json` file parses and every article in it has a title and a content. */
  predicate Clean(files: seq<DataFile>) {
    forall k :: 0 <= k < |files| ==> CleanFile(files[k])
  }

  /** The chunks of a clean article list, one per kept article, in order. */
  function ArticleChunks(name: string, articles: seq<Article>, embed: string -> Option<seq<real>>): seq<Chunk>
    requires CleanArticlesOf(articles)
  {
    if articles == [] then []
    else
      (match Kept(name, articles[0], embed) case Some(c) => [c] case None => [])
      + ArticleChunks(name, articles[1..], embed)
  }

  /** The chunks one clean directory entry contributes. */
  function FileChunks(f: DataFile, embed: string -> Option<seq<real>>): seq<Chunk>
    requires CleanFile(f)
  {
    if EndsWith(f.name, ".json") then ArticleChunks(f.name, f.articles.value, embed) else []
  }

  lemma CleanTail(files: seq<DataFile>)
    requires files != [] && Clean(files)
    ensures CleanFile(files[0]) && Clean(files[1..])
  {
    forall k | 0 <= k < |files[1..]| ensures CleanFile(files[1..][k]) {
      assert files[1..][k] == files[k + 1];
    }
  }

  /** The chunks of a clean listing: those of each `.json` file, in listing order. */
  function Expected(files: seq<DataFile>, embed: string -> Option<seq<real>>): seq<Chunk>
    requires Clean(files)
  {
    if files == [] then []
    else
      CleanTail(files);
      FileChunks(files[0], embed) + Expected(files[1..], embed)
  }

  lemma {:induction false} CleanArticles(acc: seq<Chunk>, name: string, articles: seq<Article>, embed: string -> Option<seq<real>>)
    requires CleanArticlesOf(articles)
    ensures ArticlesFold(acc, name, articles, embed) == Ok(acc + ArticleChunks(name, articles, embed))
    decreases |articles|
  {
    if articles != [] {
      var rest := articles[1..];
      assert CleanArticlesOf(rest) by {
        forall m | 0 <= m < |rest| ensures rest[m].title.Some? && rest[m].content.Some? {
          assert rest[m] == articles[m + 1];
        }
      }
      assert ArticleOutcome(name, articles[0], embed) == Ok(Kept(name, articles[0], embed));
      match Kept(name, articles[0], embed)
      case Some(c) =>
        CleanArticles(acc + [c], name, rest, embed);
        assert ArticlesFold(acc, name, articles, embed) == ArticlesFold(acc + [c], name, rest, embed);
        assert ArticleChunks(name, articles, embed) == [c] + ArticleChunks(name, rest, embed);
        assert acc + [c] + ArticleChunks(name, rest, embed) == acc + ([c] + ArticleChunks(name, rest, embed));
      case None =>
        CleanArticles(acc, name, rest, embed);
        assert ArticlesFold(acc, name, articles, embed) == ArticlesFold(acc, name, rest, embed);
        assert ArticleChunks(name, articles, embed) == [] + ArticleChunks(name, rest, embed);
        assert [] + ArticleChunks(name, rest, embed) == ArticleChunks(name, rest, embed);
    } else {
      assert acc + [] == acc;
    }
  }

  lemma AppendAssoc(a: seq<Chunk>, b: seq<Chunk>, c: seq<Chunk>)
    ensures a + b + c == a + (b + c)
  {
  }

  lemma CleanFileStep(acc: seq<Chunk>, f: DataFile, embed: string -> Option<seq<real>>)
    requires CleanFile(f)
    ensures FileFold(acc, f, embed) == Ok(acc + FileChunks(f, embed))
  {
    if EndsWith(f.name, ".json") {
      CleanArticles(acc, f.name, f.articles.value, embed);
    } else {
      assert acc + [] == acc;
    }
  }

  /**
   * On a clean listing nothing is raised, and the result is exactly the
   * reference list: files not ending in `.json` contribute nothing, and each
   * article of a `.json` file contributes its one chunk if kept.
   */
  lemma {:induction false} CleanIngest(acc: seq<Chunk>, files: seq<DataFile>, embed: string -> Option<seq<real>>)
    requires Clean(files)
    ensures Fold(acc, files, embed) == Ok(acc + Expected(files, embed))
    decreases |files|
  {
    if files == [] {
      assert acc + [] == acc;
    } else {
      var rest := files[1..];
      CleanTail(files);
      var part := FileChunks(files[0], embed);
      CleanFileStep(acc, files[0], embed);
      assert Fold(acc, files, embed) == Fold(acc + part, rest, embed);
      assert Expected(files, embed) == part + Expected(rest, embed);
      CleanIngest(acc + part, rest, embed);
      AppendAssoc(acc, part, Expected(rest, embed));
    }
  }

  // ---------------------------------------------------------------- errors abort the run

  lemma {:induction false} ArticlesErrorSticks(acc: seq<Chunk>, name: string, articles: seq<Article>, m: nat, embed: string -> Option<seq<real>>)
    requires m < |articles|
    requires articles[m].title.None? || articles[m].content.None?
    ensures ArticlesFold(acc, name, articles, embed).Err?
    decreases m
  {
    var o := ArticleOutcome(name, articles[0], embed);
    if m > 0 && o.Ok? {
      assert articles[1..][m - 1] == articles[m];
      if o.value.None? {
        ArticlesErrorSticks(acc, name, articles[1..], m - 1, embed);
      } else {
        ArticlesErrorSticks(acc + [o.value.value], name, articles[1..], m - 1, embed);
      }
    }
  }

  /**
   * A `.json` file that does not parse, or that holds an article without a
   * title or a content, makes the whole run raise: no partial list is returned.
   */
  lemma {:induction false} BrokenFileAborts(acc: seq<Chunk>, files: seq<DataFile>, k: nat, embed: string -> Option<seq<real>>)
    requires k < |files| && EndsWith(files[k].name, ".json")
    requires files[k].articles.None?
      || exists m :: 0 <= m < |files[k].articles.value|
           && (files[k].articles.value[m].title.None? || files[k].articles.value[m].content.None?)
    ensures Fold(acc, files, embed).Err?
    decreases k
  {
    var res := FileFold(acc, files[0], embed);
    if k == 0 {
      if files[0].articles.Some? {
        var m :| 0 <= m < |files[0].articles.value|
          && (files[0].articles.value[m].title.None? || files[0].articles.value[m].content.None?);
        ArticlesErrorSticks(acc, files[0].name, files[0].articles.value, m, embed);
      }
    } else if res.Ok? {
      assert files[1..][k - 1] == files[k];
      BrokenFileAborts(res.value, files[1..], k - 1, embed);
    }
  }

  /** The extension test is case-sensitive: an upper-case `.JSON` file is passed over. */
  lemma UpperCaseExtensionSkipped(acc: seq<Chunk>, articles: Option<seq<Article>>, rest: seq<DataFile>, embed: string -> Option<seq<real>>)
    ensures Fold(acc, [DataFile("naval.JSON", articles)] + rest, embed) == Fold(acc, rest, embed)
  {
    var files := [DataFile("naval.JSON", articles)] + rest;
    assert files[0].name[|files[0].name| - 5..] == ".JSON";
    assert files[1..] == rest;
  }
}
