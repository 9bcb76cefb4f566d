/** The keyword router and the quit test of run_director.py. */
module Director {
  import opened Text

  datatype Route = DataEngineer | Strategy

  /** Words that send a request to the data engineer. */
  const DataKeywords: seq<string> := ["sql", "schema", "table", "database", "migration"]

  /** `route_request`: the data engineer when the lower-cased request
      contains a data keyword anywhere, the strategy board otherwise. */
  function RouteRequest(userInput: string): (r: Route)
    ensures r == DataEngineer <==> exists k :: 0 <= k < |DataKeywords| && Contains(Lower(userInput), DataKeywords[k])
  {
    AnyHitIff(Lower(userInput), DataKeywords);
    if AnyHit(Lower(userInput), DataKeywords) then DataEngineer else Strategy
  }

  /** The interactive loop stops on exactly "quit" or "exit", in any case,
      with no trimming. */
  predicate IsQuit(userInput: string) {
    Lower(userInput) == "quit" || Lower(userInput) == "exit"
  }

  // ----- Properties -----

  /** Routing ignores case. */
  lemma RouteCaseInsensitive(userInput: string)
    ensures RouteRequest(Lower(userInput)) == RouteRequest(userInput)
  {
    LowerIdempotent(userInput);
  }

  /** "Show SCHEMA" goes to the data engineer. */
  lemma ShowSchemaRoutesToData()
    ensures RouteRequest("Show SCHEMA") == DataEngineer
  {
    var t := "show schema";
    assert Lower("Show SCHEMA") == t;
    assert t[5..11] == "schema";
    ContainsAt(t, "schema", 5);
  }

  /** Substring matching: "portfolio stable" contains "table". */
  lemma PortfolioRoutesToData()
    ensures RouteRequest("Is my portfolio stable?") == DataEngineer
  {
    PortfolioLower();
    var t := "is my portfolio stable?";
    assert t[17] == 't';
    assert t[18] == 'a';
    assert t[19] == 'b';
    assert t[20] == 'l';
    assert t[21] == 'e';
    assert t[17..22] == "table";
    ContainsAt(t, "table", 17);
  }

  lemma PortfolioLower()
    ensures Lower("Is my portfolio stable?") == "is my portfolio stable?"
  {
  }

  /** A spending question names no data keyword and goes to strategy. */
  lemma SpendingQuestionRoutesToStrategy()
    ensures RouteRequest("How much did I spend?") == Strategy
  {
    SpendingQuestionLower();
    SpendingQuestionNoKeyword();
  }

  lemma SpendingQuestionNoKeyword()
    ensures !AnyHit("how much did i spend?", DataKeywords)
  {
    NoHitByMissingChars("how much did i spend?", DataKeywords, [1, 5, 0, 1, 2], 0);
  }

  lemma SpendingQuestionLower()
    ensures Lower("How much did I spend?") == "how much did i spend?"
  {
  }

  /** "QUIT" ends the session; " quit" with a leading space does not. */
  lemma QuitExamples()
    ensures IsQuit("QUIT") && IsQuit("Exit")
    ensures !IsQuit(" quit") && !IsQuit("quit ")
  {
    assert Lower(" quit")[0] == ' ';
    assert |Lower("quit ")| == 5;
  }
}
