// The `/process` request: build the feature table, score every product and
// allocate the recommendations, in that order, on the same random stream.

module Service {
  import opened Common
  import opened Catalog
  import opened Features
  import opened Scoring
  import opened Allocation

  /** The `client_code` column of the feature table. */
  function ClientCodes(rows: seq<Row>): (codes: seq<ClientId>)
    ensures |codes| == |rows|
    ensures forall i :: 0 <= i < |rows| ==> codes[i] == rows[i].client.code
  {
    seq(|rows|, i requires 0 <= i < |rows| => rows[i].client.code)
  }

  /** `process_data` then `calculate_benefits`: one list of at most four
      distinct products per client row, each backed by a positive benefit of
      that client, drawn from the benefits the scoring pass computed. */
  method Recommendations(clients: seq<Client>, txs: seq<Transaction>, trs: seq<Transfer>, rng: Random)
    returns (benefits: seq<seq<Num>>, recs: seq<seq<Product>>)
    requires rng.Valid()
    modifies rng
    ensures benefits == ScoreTable(Formula, Products, ProcessData(clients, txs, trs), rng.stream, old(rng.cursor)).columns
    ensures rng.cursor == ScoreTable(Formula, Products, ProcessData(clients, txs, trs), rng.stream, old(rng.cursor)).next
    ensures recs == Allocate(ClientCodes(ProcessData(clients, txs, trs)), benefits)
    ensures |recs| == |clients|
    ensures forall i :: 0 <= i < |recs| ==> |recs[i]| <= 4
    ensures forall i, a, b :: 0 <= i < |recs| && 0 <= a < b < |recs[i]| ==> recs[i][a] != recs[i][b]
    ensures forall i, k :: 0 <= i < |recs| && 0 <= k < |recs[i]| ==>
              Justified(clients[i].code, recs[i][k], ClientCodes(ProcessData(clients, txs, trs)), benefits)
  {
    var rows := ProcessData(clients, txs, trs);
    benefits := CalculateBenefits(rows, rng);
    var codes := ClientCodes(rows);
    recs := GlobalDiversity(codes, benefits);
    forall i | 0 <= i < |recs|
      ensures forall a, b :: 0 <= a < b < |recs[i]| ==> recs[i][a] != recs[i][b]
    {
      RecommendationDistinct(codes, benefits, i);
    }
  }
}
