/** The fixed credit-score table of the processors and its lookup
    (processors/.../service/CreditScoreService.java). */
module CreditScore {
  import opened Wrappers

  /** The score returned for every customer the table does not know. */
  const UnknownCustomerScore: int := -70

  /** The ten seeded customers, as the constructor enters them. */
  const SeededScores: map<string, int> := map[
    "CUST-001" := 750, "CUST-002" := 680, "CUST-003" := 720, "CUST-004" := 650,
    "CUST-005" := 800, "CUST-006" := 590, "CUST-007" := 710, "CUST-008" := 670,
    "CUST-009" := 780, "CUST-010" := 620]

  /** `getOrDefault(customerId, -70)` on a table; a null id is never a key. */
  function ScoreOf(table: map<string, int>, customerId: Option<string>): (score: int)
    ensures customerId.Some? && customerId.value in table ==> score == table[customerId.value]
    ensures customerId.None? || customerId.value !in table ==> score == UnknownCustomerScore
  {
    match customerId
    case Some(id) => if id in table then table[id] else UnknownCustomerScore
    case None => UnknownCustomerScore
  }

  /** The service object: its table is filled once, by the constructor,
      and never written again. */
  class CreditScoreService {
    const creditScores: map<string, int>

    /** The table holds the seeded scores. */
    predicate Valid()
    {
      creditScores == SeededScores
    }

    constructor ()
      ensures Valid()
    {
      var table: map<string, int> := map[];
      table := table["CUST-001" := 750];
      table := table["CUST-002" := 680];
      table := table["CUST-003" := 720];
      table := table["CUST-004" := 650];
      table := table["CUST-005" := 800];
      table := table["CUST-006" := 590];
      table := table["CUST-007" := 710];
      table := table["CUST-008" := 670];
      table := table["CUST-009" := 780];
      table := table["CUST-010" := 620];
      creditScores := table;
    }

    /** Reads the table and never writes it (the method modifies nothing). */
    method GetCreditScore(customerId: Option<string>) returns (score: int)
      requires Valid()
      ensures score == ScoreOf(creditScores, customerId)
      ensures score == UnknownCustomerScore || 590 <= score <= 800
    {
      score := UnknownCustomerScore;
      if customerId.Some? && customerId.value in creditScores {
        score := creditScores[customerId.value];
      }
      SeededScoresInRange(customerId);
    }
  }

  /** Every seeded score lies in [590, 800]; everything else gets -70. */
  lemma SeededScoresInRange(customerId: Option<string>)
    ensures var s := ScoreOf(SeededScores, customerId);
      s == UnknownCustomerScore || 590 <= s <= 800
    ensures customerId.Some? && customerId.value in SeededScores ==>
      590 <= ScoreOf(SeededScores, customerId) <= 800
  {
    if customerId.Some? && customerId.value in SeededScores {
      var id := customerId.value;
      assert id in SeededScores.Keys;
      assert forall k | k in SeededScores :: 590 <= SeededScores[k] <= 800;
    }
  }

  /** Each seeded id answers its own score. */
  lemma SeededValues()
    ensures ScoreOf(SeededScores, Some("CUST-001")) == 750
    ensures ScoreOf(SeededScores, Some("CUST-002")) == 680
    ensures ScoreOf(SeededScores, Some("CUST-003")) == 720
    ensures ScoreOf(SeededScores, Some("CUST-004")) == 650
    ensures ScoreOf(SeededScores, Some("CUST-005")) == 800
    ensures ScoreOf(SeededScores, Some("CUST-006")) == 590
    ensures ScoreOf(SeededScores, Some("CUST-007")) == 710
    ensures ScoreOf(SeededScores, Some("CUST-008")) == 670
    ensures ScoreOf(SeededScores, Some("CUST-009")) == 780
    ensures ScoreOf(SeededScores, Some("CUST-010")) == 620
  {
  }

  /** An id that is not seeded, and a null id, both get -70. */
  lemma UnknownCustomers(id: string)
    requires id !in SeededScores
    ensures ScoreOf(SeededScores, Some(id)) == -70
    ensures ScoreOf(SeededScores, None) == -70
  {
  }
}
