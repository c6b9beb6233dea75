/** The knowledge server: `search_documents` embeds the query, runs one hybrid (text plus vector) semantic
    search on the chosen index, and projects every returned row onto title, text and reranker score;
    `search_web` forwards the query to a web-search client with fixed options. */
module KnowledgeServer {
  import opened Wrappers
  import opened PyValues

  /** The two indexes the tool's parameter type admits. */
  datatype SearchIndex = Official | DeepResearch

  /** The literal index name each choice stands for; the two names differ. */
  function IndexName(index: SearchIndex): (n: string)
    ensures n == "esvi-mcp-official" || n == "esvi-mcp-deepresearch"
    ensures index.Official? <==> n == "esvi-mcp-official"
  {
    match index
    case Official => "esvi-mcp-official"
    case DeepResearch => "esvi-mcp-deepresearch"
  }

  /** The vector part of the hybrid query. */
  datatype VectorizedQuery = VectorizedQuery(vector: seq<real>, kNearestNeighbors: int, fields: string, weight: real)

  /** One search call: the index, the text, the vector queries, the semantic configuration and the page size. */
  datatype SearchRequest = SearchRequest(
    indexName: string,
    searchText: string,
    vectorQueries: seq<VectorizedQuery>,
    queryType: string,
    semanticConfigurationName: string,
    top: int)

  /** The embedding service's answer for a model name and a text, or the message of the exception the
      client raised. */
  type Embed = (string, string) -> Result<seq<real>>

  /** The embedding model `embed_query` asks for. */
  const EmbeddingModel: string := "text-embedding-3-large"
  /** The rows the search service returns for a request, or the message of the exception it raised. */
  type Search = SearchRequest -> Result<seq<Value>>

  const ConfigurationSuffix: string := "-semantic-configuration"
  const VectorWeight: real := 0.7

  /** The semantic configuration an index is searched with. */
  function SemanticConfigurationName(indexName: string): (s: string)
    ensures |s| == |indexName| + |ConfigurationSuffix|
    ensures s[..|indexName|] == indexName && s[|indexName|..] == ConfigurationSuffix
  {
    indexName + ConfigurationSuffix
  }

  /** Different indexes are searched with different semantic configurations. */
  lemma ConfigurationNameInjective(a: string, b: string)
    requires SemanticConfigurationName(a) == SemanticConfigurationName(b)
    ensures a == b
  {
    var s := SemanticConfigurationName(a);
    assert |a| == |b|;
    assert a == s[..|a|] == b;
  }

  /** The request of `search_documents`: `k` bounds both the nearest-neighbour search and the page. */
  function SearchRequestFor(index: SearchIndex, query: string, k: int, vector: seq<real>): (req: SearchRequest)
    ensures req.top == k && |req.vectorQueries| == 1 && req.vectorQueries[0].kNearestNeighbors == k
    ensures req.vectorQueries[0].vector == vector && req.vectorQueries[0].fields == "content_embedding"
    ensures req.vectorQueries[0].weight == 0.7
    ensures req.indexName == IndexName(index) && req.searchText == query && req.queryType == "semantic"
    ensures req.semanticConfigurationName == IndexName(index) + "-semantic-configuration"
  {
    SearchRequest(
      IndexName(index),
      query,
      [VectorizedQuery(vector, k, "content_embedding", VectorWeight)],
      "semantic",
      SemanticConfigurationName(IndexName(index)),
      k)
  }

  /** One normalised row: `r["document_title"]`, `r["content_text"]`, `r["@search.reranker_score"]`, read in
      that order, under the output names; the first missing key raises its KeyError. */
  function CleanRow(row: Value): (r: Result<Value>)
    ensures r.Ok? <==> HasSearchFields(row)
    ensures r.Ok? ==> r.value == Dict(Projection(row))
    ensures row.Dict? && "document_title" !in row.fields ==> r == Err(KeyErrorMessage("document_title"))
  {
    var title :- GetItem(row, "document_title");
    var content :- GetItem(row, "content_text");
    var score :- GetItem(row, "@search.reranker_score");
    Ok(Dict(map["document_title" := title, "content_text" := content, "score" := score]))
  }

  /** The rows normalised one after another, stopping at the first failure. */
  function CleanRows(rows: seq<Value>): (r: Result<seq<Value>>)
    ensures r.Ok? ==> |r.value| == |rows|
    decreases |rows|
  {
    if |rows| == 0 then Ok([])
    else
      var done :- CleanRows(rows[..|rows| - 1]);
      var last :- CleanRow(rows[|rows| - 1]);
      Ok(done + [last])
  }

  /** The row carries the three keys the projection reads. */
  predicate HasSearchFields(row: Value)
  {
    row.Dict? && "document_title" in row.fields && "content_text" in row.fields
    && "@search.reranker_score" in row.fields
  }

  /** The expected projection of a row. */
  function Projection(row: Value): map<string, Value>
    requires HasSearchFields(row)
  {
    map["document_title" := row.fields["document_title"],
        "content_text" := row.fields["content_text"],
        "score" := row.fields["@search.reranker_score"]]
  }

  /** Normalisation succeeds exactly when every row has the three fields; it then keeps the rows' number
      and order, each output has exactly the keys document_title, content_text and score, and the score is
      the row's reranker score as returned, null included. */
  lemma {:induction false} CleanRowsProjects(rows: seq<Value>)
    ensures CleanRows(rows).Ok? <==> forall i :: 0 <= i < |rows| ==> HasSearchFields(rows[i])
    ensures CleanRows(rows).Ok? ==> |CleanRows(rows).value| == |rows|
    ensures CleanRows(rows).Ok? ==> forall i :: 0 <= i < |rows| ==> CleanRows(rows).value[i] == Dict(Projection(rows[i]))
    decreases |rows|
  {
    if |rows| > 0 {
      var front := rows[..|rows| - 1];
      CleanRowsProjects(front);
      assert forall i :: 0 <= i < |front| ==> front[i] == rows[i];
      if CleanRows(rows).Ok? {
        var out := CleanRows(rows).value;
        assert out == CleanRows(front).value + [CleanRow(rows[|rows| - 1]).value];
      }
    }
  }

  /** A failed normalisation reports the KeyError of the first row that lacks a field. */
  lemma {:induction false} CleanRowsFirstFailure(rows: seq<Value>, j: nat)
    requires j < |rows| && CleanRow(rows[j]).Err?
    requires forall i :: 0 <= i < j ==> CleanRow(rows[i]).Ok?
    ensures CleanRows(rows) == Err(CleanRow(rows[j]).msg)
    decreases |rows|
  {
    var front := rows[..|rows| - 1];
    if j < |rows| - 1 {
      assert front[j] == rows[j];
      CleanRowsFirstFailure(front, j);
    } else {
      assert forall i :: 0 <= i < |front| ==> front[i] == rows[i];
      CleanRowsSucceed(front);
    }
  }

  lemma {:induction false} CleanRowsSucceed(rows: seq<Value>)
    requires forall i :: 0 <= i < |rows| ==> CleanRow(rows[i]).Ok?
    ensures CleanRows(rows).Ok?
    decreases |rows|
  {
    if |rows| > 0 {
      var front := rows[..|rows| - 1];
      assert forall i :: 0 <= i < |front| ==> front[i] == rows[i];
      CleanRowsSucceed(front);
    }
  }

  /** Once a prefix of the rows fails, the whole normalisation fails with the same message. */
  lemma {:induction false} CleanRowsStopAtFailure(rows: seq<Value>, n: nat)
    requires n <= |rows| && CleanRows(rows[..n]).Err?
    ensures CleanRows(rows) == CleanRows(rows[..n])
    decreases |rows| - n
  {
    if n < |rows| {
      var front := rows[..|rows| - 1];
      assert front[..n] == rows[..n];
      CleanRowsStopAtFailure(front, n);
    } else {
      assert rows[..n] == rows;
    }
  }

  /** The loop of `search_documents` that builds `clean_results`. */
  method NormaliseResults(results: seq<Value>) returns (r: Result<seq<Value>>)
    ensures r == CleanRows(results)
  {
    var clean: seq<Value> := [];
    var i := 0;
    while i < |results|
      invariant 0 <= i <= |results|
      invariant CleanRows(results[..i]) == Ok(clean)
    {
      assert results[..i + 1][..i] == results[..i];
      var row := CleanRow(results[i]);
      if row.Err? {
        CleanRowsStopAtFailure(results, i + 1);
        return Err(row.msg);
      }
      clean := clean + [row.value];
      i := i + 1;
    }
    assert results[..i] == results;
    r := Ok(clean);
  }

  /** `search_documents(search_index, query, k)`, with the embedding and search services as parameters.
      Failures are not caught here: an `Err` is an exception leaving the tool. */
  method SearchDocuments(index: SearchIndex, query: string, embed: Embed, search: Search, k: int := 5)
    returns (r: Result<seq<Value>>)
    ensures embed("text-embedding-3-large", query).Err? ==> r == Err(embed("text-embedding-3-large", query).msg)
    ensures embed("text-embedding-3-large", query).Ok? ==>
      var rows := search(SearchRequestFor(index, query, k, embed("text-embedding-3-large", query).value));
      r == if rows.Err? then Err(rows.msg) else CleanRows(rows.value)
  {
    var vector :- embed(EmbeddingModel, query);
    var results :- search(SearchRequestFor(index, query, k, vector));
    r := NormaliseResults(results);
  }

  /** What is sent to the web-search client. */
  datatype WebSearchRequest = WebSearchRequest(query: string, depth: string, outputType: string)

  /** `search_web(query)`: the client's response, returned as it came. */
  function SearchWeb(query: string, linkup: WebSearchRequest -> Result<Value>): (r: Result<Value>)
    ensures exists req :: r == linkup(req) && req.query == query && req.depth == "standard" && req.outputType == "searchResults"
  {
    linkup(WebSearchRequest(query, "standard", "searchResults"))
  }
}
