/** The re-embedding job: every chunk of every ingested artifact gets an embedding for the chosen
    configuration, and nothing stored before is touched. */
module Reembed {
  import opened Text
  import opened Wrappers
  import opened Archive

  datatype Config = Config(id: string, active: bool, dimensions: int)

  datatype Artifact = Artifact(id: string, ingested: bool)

  datatype Chunk = Chunk(id: string, artifact: string, sequence: int, created: int, text: string)

  type Vector = seq<real>

  datatype Embedding = Embedding(chunk: string, config: string, dimensions: int, vector: Vector)

  /** The deterministic vector of a text; it exists for positive dimensions only. */
  type Embed = (string, int) -> Vector

  // ---------- choosing ----------

  /** The first active configuration, else the first. */
  function Target(configs: seq<Config>): (r: Config)
    requires |configs| > 0
    ensures r in configs
    ensures r.active <==> exists c :: c in configs && c.active
    ensures r.active ==> exists k :: 0 <= k < |configs| && configs[k] == r && forall j :: 0 <= j < k ==> !configs[j].active
    ensures !r.active ==> r == configs[0]
  {
    FirstActive(configs, configs[0])
  }

  function FirstActive(configs: seq<Config>, fallback: Config): (r: Config)
    ensures r in configs || r == fallback
    ensures (exists c :: c in configs && c.active) ==> r in configs && r.active
    ensures !(exists c :: c in configs && c.active) ==> r == fallback
    ensures (exists c :: c in configs && c.active) ==>
              exists k :: 0 <= k < |configs| && configs[k] == r && forall j :: 0 <= j < k ==> !configs[j].active
  {
    if |configs| == 0 then fallback
    else if configs[0].active then configs[0]
    else
      var r := FirstActive(configs[1..], fallback);
      assert forall k :: 0 <= k < |configs| - 1 ==> configs[1..][k] == configs[k + 1];
      r
  }

  function ChunksOf(chunks: seq<Chunk>, artifact: string): (r: seq<Chunk>)
    ensures forall c :: c in r <==> c in chunks && c.artifact == artifact
  {
    if |chunks| == 0 then []
    else (if chunks[0].artifact == artifact then [chunks[0]] else []) + ChunksOf(chunks[1..], artifact)
  }

  predicate ChunkLe(a: Chunk, b: Chunk) {
    || a.sequence < b.sequence
    || (a.sequence == b.sequence && (a.created < b.created || (a.created == b.created && LexLe(a.id, b.id))))
  }

  /** The chunks the job visits: those of the ingested artifacts, artifact by artifact. */
  function Selected(chunks: seq<Chunk>, artifacts: seq<Artifact>): seq<Chunk> {
    if |artifacts| == 0 then []
    else
      var n := |artifacts| - 1;
      Selected(chunks, artifacts[..n])
      + if artifacts[n].ingested then Sort(ChunksOf(chunks, artifacts[n].id), ChunkLe) else []
  }

  lemma SelectedStep(chunks: seq<Chunk>, artifacts: seq<Artifact>, i: nat)
    requires i < |artifacts|
    ensures Selected(chunks, artifacts[..i + 1])
         == Selected(chunks, artifacts[..i])
            + if artifacts[i].ingested then Sort(ChunksOf(chunks, artifacts[i].id), ChunkLe) else []
  {
    assert artifacts[..i + 1][..i] == artifacts[..i];
  }

  lemma {:induction false} SelectedAreIngested(chunks: seq<Chunk>, artifacts: seq<Artifact>, c: Chunk)
    ensures c in Selected(chunks, artifacts) <==>
            c in chunks && exists a :: a in artifacts && a.ingested && a.id == c.artifact
  {
    if |artifacts| > 0 {
      var n := |artifacts| - 1;
      SelectedAreIngested(chunks, artifacts[..n], c);
      SortMembers(ChunksOf(chunks, artifacts[n].id), ChunkLe, c);
      assert artifacts == artifacts[..n] + [artifacts[n]];
      assert forall a :: a in artifacts <==> a in artifacts[..n] || a == artifacts[n];
    }
  }

  // ---------- what is missing, and what a run adds ----------

  predicate Embedded(rows: seq<Embedding>, config: string, chunk: string) {
    exists i :: 0 <= i < |rows| && rows[i].config == config && rows[i].chunk == chunk
  }

  /** Ids of these chunks without an embedding for the configuration. */
  function Missing(visited: seq<Chunk>, config: Config, rows: seq<Embedding>): set<string> {
    set k | 0 <= k < |visited| && !Embedded(rows, config.id, visited[k].id) :: visited[k].id
  }

  function RowFor(c: Chunk, config: Config, embed: Embed): Embedding {
    Embedding(c.id, config.id, config.dimensions, embed(c.text, config.dimensions))
  }

  predicate IsRow(visited: seq<Chunk>, config: Config, embed: Embed, row: Embedding) {
    exists k :: 0 <= k < |visited| && row == RowFor(visited[k], config, embed)
  }

  predicate AreRows(visited: seq<Chunk>, config: Config, embed: Embed, before: seq<Embedding>, after: seq<Embedding>) {
    forall i :: |before| <= i < |after| ==> IsRow(visited, config, embed, after[i])
  }

  predicate OneRowEach(added: seq<Embedding>, ids: set<string>) {
    && |added| == |ids|
    && (forall i :: 0 <= i < |added| ==> added[i].chunk in ids)
    && (forall id :: id in ids ==> exists i :: 0 <= i < |added| && added[i].chunk == id)
    && (forall i, j :: 0 <= i < j < |added| ==> added[i].chunk != added[j].chunk)
  }

  /** Everything stored before is still there, in place; behind it stands exactly one row for each missing
      chunk id, the row of a visited chunk. */
  predicate Completes(visited: seq<Chunk>, config: Config, embed: Embed, before: seq<Embedding>, after: seq<Embedding>) {
    && before <= after
    && OneRowEach(after[|before|..], Missing(visited, config, before))
    && AreRows(visited, config, embed, before, after)
  }

  lemma StepCompletes(c: Chunk, config: Config, embed: Embed, rows: seq<Embedding>)
    ensures Embedded(rows, config.id, c.id) ==> Completes([c], config, embed, rows, rows)
    ensures !Embedded(rows, config.id, c.id) ==> Completes([c], config, embed, rows, rows + [RowFor(c, config, embed)])
  {
    var missing := Missing([c], config, rows);
    if Embedded(rows, config.id, c.id) {
      assert missing == {};
    } else {
      assert [c][0].id in missing;
      assert missing == {c.id};
      var added := (rows + [RowFor(c, config, embed)])[|rows|..];
      assert added == [RowFor(c, config, embed)];
      assert RowFor([c][0], config, embed) == added[0];
    }
  }

  lemma EmbeddedParts(before: seq<Embedding>, added: seq<Embedding>, config: string, id: string)
    ensures Embedded(before + added, config, id) <==> Embedded(before, config, id) || Embedded(added, config, id)
  {
    var after, n := before + added, |before|;
    if Embedded(before, config, id) {
      var i :| 0 <= i < n && before[i].config == config && before[i].chunk == id;
      assert after[i] == before[i];
    }
    if Embedded(added, config, id) {
      var i :| 0 <= i < |added| && added[i].config == config && added[i].chunk == id;
      assert after[n + i] == added[i];
    }
    if Embedded(after, config, id) {
      var i :| 0 <= i < |after| && after[i].config == config && after[i].chunk == id;
      assert if i < n then before[i] == after[i] else added[i - n] == after[i];
    }
  }

  /** After a run exactly the missing ids are embedded in addition. */
  lemma EmbeddedAfter(visited: seq<Chunk>, config: Config, embed: Embed, before: seq<Embedding>, after: seq<Embedding>,
                      id: string)
    requires Completes(visited, config, embed, before, after)
    ensures Embedded(after, config.id, id) <==>
            Embedded(before, config.id, id) || id in Missing(visited, config, before)
  {
    var added, n := after[|before|..], |before|;
    assert after == before + added;
    EmbeddedParts(before, added, config.id, id);
    forall i | 0 <= i < |added|
      ensures added[i].config == config.id
    {
      assert IsRow(visited, config, embed, after[n + i]);
    }
  }

  lemma Appended(a: seq<Embedding>, b: seq<Embedding>, ids: set<string>, more: set<string>)
    requires OneRowEach(a, ids) && OneRowEach(b, more) && ids !! more
    ensures OneRowEach(a + b, ids + more)
  {
    forall id | id in ids + more
      ensures exists i :: 0 <= i < |a + b| && (a + b)[i].chunk == id
    {
      if id in ids {
        var i :| 0 <= i < |a| && a[i].chunk == id;
        assert (a + b)[i].chunk == id;
      } else {
        var i :| 0 <= i < |b| && b[i].chunk == id;
        assert (a + b)[|a| + i].chunk == id;
      }
    }
  }

  lemma MissingThen(first: seq<Chunk>, second: seq<Chunk>, config: Config, embed: Embed,
                    a: seq<Embedding>, b: seq<Embedding>)
    requires Completes(first, config, embed, a, b)
    ensures Missing(first, config, a) !! Missing(second, config, b)
    ensures Missing(first + second, config, a) == Missing(first, config, a) + Missing(second, config, b)
  {
    var whole := first + second;
    forall id
      ensures id in Missing(whole, config, a) <==>
              id in Missing(first, config, a) || id in Missing(second, config, b)
      ensures !(id in Missing(first, config, a) && id in Missing(second, config, b))
    {
      EmbeddedAfter(first, config, embed, a, b, id);
      if id in Missing(first, config, a) {
        var k :| 0 <= k < |first| && first[k].id == id;
        assert whole[k].id == id;
      }
      if id in Missing(second, config, b) {
        var k :| 0 <= k < |second| && second[k].id == id;
        assert whole[|first| + k].id == id;
      }
      if id in Missing(whole, config, a) {
        var k :| 0 <= k < |whole| && whole[k].id == id;
        if k < |first| {
          assert first[k].id == id;
        } else {
          assert second[k - |first|].id == id;
        }
      }
    }
  }

  lemma RowsTogether(first: seq<Chunk>, second: seq<Chunk>, config: Config, embed: Embed, row: Embedding)
    requires IsRow(first, config, embed, row) || IsRow(second, config, embed, row)
    ensures IsRow(first + second, config, embed, row)
  {
    var whole := first + second;
    if IsRow(first, config, embed, row) {
      var k :| 0 <= k < |first| && row == RowFor(first[k], config, embed);
      assert whole[k] == first[k];
    } else {
      var k :| 0 <= k < |second| && row == RowFor(second[k], config, embed);
      assert whole[|first| + k] == second[k];
    }
  }

  lemma {:induction false} RowsInTurn(a: seq<Embedding>, b: seq<Embedding>, c: seq<Embedding>, ids: set<string>, more: set<string>)
    requires a <= b <= c && ids !! more
    requires OneRowEach(b[|a|..], ids) && OneRowEach(c[|b|..], more)
    ensures OneRowEach(c[|a|..], ids + more)
  {
    var first, second := b[|a|..], c[|b|..];
    assert c[|a|..] == first + second;
    Appended(first, second, ids, more);
  }

  lemma AreRowsInTurn(first: seq<Chunk>, second: seq<Chunk>, config: Config, embed: Embed,
                      a: seq<Embedding>, b: seq<Embedding>, c: seq<Embedding>)
    requires b <= c && AreRows(first, config, embed, a, b) && AreRows(second, config, embed, b, c)
    ensures AreRows(first + second, config, embed, a, c)
  {
    forall i | |a| <= i < |c|
      ensures IsRow(first + second, config, embed, c[i])
    {
      if i < |b| {
        assert c[i] == b[i];
      }
      RowsTogether(first, second, config, embed, c[i]);
    }
  }

  /** Visiting one list and then another is visiting both. */
  lemma ThenCompletes(first: seq<Chunk>, second: seq<Chunk>, config: Config, embed: Embed,
                      a: seq<Embedding>, b: seq<Embedding>, c: seq<Embedding>)
    requires Completes(first, config, embed, a, b) && Completes(second, config, embed, b, c)
    ensures Completes(first + second, config, embed, a, c)
  {
    MissingThen(first, second, config, embed, a, b);
    RowsInTurn(a, b, c, Missing(first, config, a), Missing(second, config, b));
    AreRowsInTurn(first, second, config, embed, a, b, c);
  }

  // ---------- the job ----------

  /** The table of embeddings; configurations, artifacts and chunks are not changed by the job. */
  class Store {
    const configs: seq<Config>
    const artifacts: seq<Artifact>
    const chunks: seq<Chunk>
    var embeddings: seq<Embedding>

    constructor (configs: seq<Config>, artifacts: seq<Artifact>, chunks: seq<Chunk>, embeddings: seq<Embedding>)
      ensures this.configs == configs && this.artifacts == artifacts && this.chunks == chunks
      ensures this.embeddings == embeddings
    {
      this.configs, this.artifacts, this.chunks, this.embeddings := configs, artifacts, chunks, embeddings;
    }

    method CreateEmbedding(row: Embedding)
      modifies this
      ensures embeddings == old(embeddings) + [row]
    {
      embeddings := embeddings + [row];
    }
  }

  datatype Counts = Counts(chunks: nat, missing: nat, created: nat)

  method EmbedChunks(store: Store, ordered: seq<Chunk>, config: Config, embed: Embed)
    returns (raised: bool, missing: nat, created: nat)
    modifies store
    ensures !raised ==> Completes(ordered, config, embed, old(store.embeddings), store.embeddings)
    ensures !raised ==> created == |store.embeddings| - |old(store.embeddings)| && created <= missing
    ensures raised <==> config.dimensions <= 0 && Missing(ordered, config, old(store.embeddings)) != {}
    ensures config.dimensions <= 0 ==> store.embeddings == old(store.embeddings)
  {
    raised, missing, created := false, 0, 0;
    ghost var before := store.embeddings;
    var embedded := set k | 0 <= k < |ordered| && Embedded(store.embeddings, config.id, ordered[k].id) :: ordered[k].id;
    assert Missing([], config, before) == {};
    for k := 0 to |ordered|
      invariant Completes(ordered[..k], config, embed, before, store.embeddings)
      invariant created == |store.embeddings| - |before| && created <= missing
      invariant config.dimensions <= 0 ==> store.embeddings == before
      invariant forall id :: id in embedded ==> Embedded(before, config.id, id)
    {
      var c := ordered[k];
      ghost var rows := store.embeddings;
      StepCompletes(c, config, embed, rows);
      EmbeddedAfter(ordered[..k], config, embed, before, rows, c.id);
      assert ordered[..k + 1] == ordered[..k] + [c];
      if c.id in embedded {
        ThenCompletes(ordered[..k], [c], config, embed, before, rows, rows);
        continue;
      }
      missing := missing + 1;
      if Embedded(store.embeddings, config.id, c.id) {
        ThenCompletes(ordered[..k], [c], config, embed, before, rows, rows);
        continue;
      }
      if config.dimensions <= 0 {
        raised := true;
        assert ordered[k].id in Missing(ordered, config, before);
        return;
      }
      store.CreateEmbedding(RowFor(c, config, embed));
      created := created + 1;
      ThenCompletes(ordered[..k], [c], config, embed, before, rows, store.embeddings);
    }
    assert ordered[..|ordered|] == ordered;
    NothingCreated(ordered, config, embed, before, store.embeddings);
  }

  /** A run that stores nothing had nothing to store. */
  lemma NothingCreated(visited: seq<Chunk>, config: Config, embed: Embed, before: seq<Embedding>, after: seq<Embedding>)
    requires Completes(visited, config, embed, before, after)
    ensures |after| - |before| == |Missing(visited, config, before)|
    ensures after == before <==> Missing(visited, config, before) == {}
  {
    assert |after[|before|..]| == |after| - |before|;
  }

  method ReembedMissingSegments(store: Store, embed: Embed) returns (result: Payload<string>, counts: Counts)
    modifies store
    ensures store.configs == [] ==>
              RunJob(result) == Warn && store.embeddings == old(store.embeddings)
    ensures store.configs != [] ==>
              var config, visited := Target(store.configs), Selected(store.chunks, store.artifacts);
              && (RunJob(result) == Pass ==>
                    && Completes(visited, config, embed, old(store.embeddings), store.embeddings)
                    && counts.created == |Missing(visited, config, old(store.embeddings))| <= counts.missing
                    && counts.chunks == |visited|)
              && (RunJob(result) == Fail ==> store.embeddings == old(store.embeddings))
              && RunJob(result) == if config.dimensions <= 0 && Missing(visited, config, old(store.embeddings)) != {}
                                   then Fail else Pass
  {
    counts := Counts(0, 0, 0);
    if |store.configs| == 0 {
      return Payload(Some(Warn), ["no embedding configs exist"], []), counts;
    }
    var config := Target(store.configs);
    var artifacts, chunks := store.artifacts, store.chunks;
    ghost var before := store.embeddings;
    assert Missing([], config, before) == {};
    ghost var visited := [];
    for i := 0 to |artifacts|
      invariant visited == Selected(chunks, artifacts[..i])
      invariant Completes(visited, config, embed, before, store.embeddings)
      invariant counts.created == |store.embeddings| - |before| && counts.created <= counts.missing
      invariant counts.chunks == |visited|
      invariant config.dimensions <= 0 ==> store.embeddings == before
    {
      SelectedStep(chunks, artifacts, i);
      if !artifacts[i].ingested {
        continue;
      }
      ghost var rows := store.embeddings;
      var ordered := Sort(ChunksOf(chunks, artifacts[i].id), ChunkLe);
      var raised, missing, created := EmbedChunks(store, ordered, config, embed);
      if raised {
        StillMissing(chunks, artifacts, i, config, before);
        return Raised, counts;
      }
      counts := Counts(counts.chunks + |ordered|, counts.missing + missing, counts.created + created);
      ThenCompletes(visited, ordered, config, embed, before, rows, store.embeddings);
      visited := visited + ordered;
    }
    assert artifacts[..|artifacts|] == artifacts;
    NothingCreated(visited, config, embed, before, store.embeddings);
    return Payload(Some(Pass), [], []), counts;
  }

  lemma StillMissing(chunks: seq<Chunk>, artifacts: seq<Artifact>, i: nat, config: Config, rows: seq<Embedding>)
    requires i < |artifacts| && artifacts[i].ingested
    requires Missing(Sort(ChunksOf(chunks, artifacts[i].id), ChunkLe), config, rows) != {}
    ensures Missing(Selected(chunks, artifacts), config, rows) != {}
  {
    var ordered := Sort(ChunksOf(chunks, artifacts[i].id), ChunkLe);
    var id :| id in Missing(ordered, config, rows);
    var k :| 0 <= k < |ordered| && ordered[k].id == id;
    var c := ordered[k];
    SortMembers(ChunksOf(chunks, artifacts[i].id), ChunkLe, c);
    SelectedAreIngested(chunks, artifacts, c);
    assert artifacts[i] in artifacts;
    var visited := Selected(chunks, artifacts);
    var m :| 0 <= m < |visited| && visited[m] == c;
    assert visited[m].id in Missing(visited, config, rows);
  }

  // ---------- complete and idempotent ----------

  /** The row is the embedding of some chunk's text for the configuration and its dimensions. */
  predicate StoresChunk(chunks: seq<Chunk>, config: Config, embed: Embed, row: Embedding) {
    && row.config == config.id && row.dimensions == config.dimensions
    && exists c :: c in chunks && row.chunk == c.id && row.vector == embed(c.text, config.dimensions)
  }

  lemma AddedRow(chunks: seq<Chunk>, artifacts: seq<Artifact>, config: Config, embed: Embed,
                 before: seq<Embedding>, after: seq<Embedding>, i: nat)
    requires Completes(Selected(chunks, artifacts), config, embed, before, after) && |before| <= i < |after|
    ensures StoresChunk(chunks, config, embed, after[i])
  {
    var visited := Selected(chunks, artifacts);
    assert IsRow(visited, config, embed, after[i]);
    var k :| 0 <= k < |visited| && after[i] == RowFor(visited[k], config, embed);
    SelectedAreIngested(chunks, artifacts, visited[k]);
    assert visited[k] in chunks;
  }

  /** After a passing run every chunk of every ingested artifact has an embedding for the configuration. */
  lemma RunIsComplete(chunks: seq<Chunk>, artifacts: seq<Artifact>, config: Config, embed: Embed,
                      before: seq<Embedding>, after: seq<Embedding>, c: Chunk, a: Artifact)
    requires Completes(Selected(chunks, artifacts), config, embed, before, after)
    requires c in chunks && a in artifacts && a.ingested && a.id == c.artifact
    ensures Embedded(after, config.id, c.id)
    ensures forall i :: 0 <= i < |before| ==> i < |after| && after[i] == before[i]
    ensures forall i :: |before| <= i < |after| ==> StoresChunk(chunks, config, embed, after[i])
  {
    forall i | |before| <= i < |after|
      ensures StoresChunk(chunks, config, embed, after[i])
    {
      AddedRow(chunks, artifacts, config, embed, before, after, i);
    }
    SelectedAreIngested(chunks, artifacts, c);
    var visited := Selected(chunks, artifacts);
    var k :| 0 <= k < |visited| && visited[k] == c;
    if !Embedded(before, config.id, c.id) {
      assert visited[k].id in Missing(visited, config, before);
    }
    EmbeddedAfter(visited, config, embed, before, after, c.id);
  }

  /** A second run over the same chunks finds nothing missing and stores nothing. */
  lemma SecondRunStoresNothing(visited: seq<Chunk>, config: Config, embed: Embed,
                               before: seq<Embedding>, after: seq<Embedding>, again: seq<Embedding>)
    requires Completes(visited, config, embed, before, after) && Completes(visited, config, embed, after, again)
    ensures again == after && Missing(visited, config, after) == {}
  {
    forall id
      ensures id !in Missing(visited, config, after)
    {
      EmbeddedAfter(visited, config, embed, before, after, id);
    }
    NothingCreated(visited, config, embed, after, again);
  }
}
