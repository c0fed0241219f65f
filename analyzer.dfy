/** `analyzeMultipleSymptoms`: which symptoms of the table the input mentions, one severity
    for the whole input, and the insertion-ordered unions of the matched symptoms'
    possible conditions and categories. */
module Analyzer {
  import opened Text
  import opened InsertionOrder
  import opened SymptomDatabase

  datatype Analysis = Analysis(
    foundSymptoms: seq<Symptom>,
    severity: Severity,
    relatedConditions: seq<string>,
    commonCategories: seq<string>)

  /** `data.keywords.some(keyword => input.includes(keyword))`. */
  predicate HasKeyword(input: string, keywords: seq<string>)
  {
    exists k :: k in keywords && Includes(input, k)
  }

  predicate Matches(input: string, s: Symptom)
  {
    HasKeyword(input, s.data.keywords)
  }

  /** The entries of `db` that `input` mentions, kept in the order of `db`. */
  function MatchedIn(input: string, db: seq<Symptom>): (found: seq<Symptom>)
    ensures |found| <= |db|
    ensures forall s :: s in found ==> s in db
    decreases |db|
  {
    if db == [] then []
    else
      var last := db[|db| - 1];
      MatchedIn(input, db[..|db| - 1]) + if Matches(input, last) then [last] else []
  }

  /** The positions in `db` of the entries that `input` mentions, in increasing order. */
  function MatchedPositions(input: string, db: seq<Symptom>): seq<nat>
    decreases |db|
  {
    if db == [] then []
    else
      var n := |db| - 1;
      MatchedPositions(input, db[..n]) + if Matches(input, db[n]) then [n] else []
  }

  /** The matches are exactly the entries at the matched positions, those positions
      increase strictly, and a position is among them iff its entry is mentioned. */
  lemma {:induction false} MatchedInByPositions(input: string, db: seq<Symptom>)
    ensures |MatchedPositions(input, db)| == |MatchedIn(input, db)|
    ensures forall j :: 0 <= j < |MatchedPositions(input, db)| ==>
              MatchedPositions(input, db)[j] < |db| &&
              MatchedIn(input, db)[j] == db[MatchedPositions(input, db)[j]]
    ensures forall j, k :: 0 <= j < k < |MatchedPositions(input, db)| ==>
              MatchedPositions(input, db)[j] < MatchedPositions(input, db)[k]
    ensures forall i :: 0 <= i < |db| ==> (i in MatchedPositions(input, db) <==> Matches(input, db[i]))
    decreases |db|
  {
    if db != [] {
      var n := |db| - 1;
      MatchedInByPositions(input, db[..n]);
      var m := Matches(input, db[n]);
      assert MatchedIn(input, db) == MatchedIn(input, db[..n]) + if m then [db[n]] else [];
      assert MatchedPositions(input, db) == MatchedPositions(input, db[..n]) + if m then [n] else [];
      forall i | 0 <= i < n ensures db[..n][i] == db[i] { }
    }
  }

  /** `'심한'`, `'극심한'` or `'매우'` occurs in the input. */
  predicate HasSevereWord(input: string)
  {
    Includes(input, "심한") || Includes(input, "극심한") || Includes(input, "매우")
  }

  /** `'조금'` or `'약간'` occurs in the input. */
  predicate HasModerateWord(input: string)
  {
    Includes(input, "조금") || Includes(input, "약간")
  }

  /** The single severity the input implies, from its intensifier words alone: severe
      whenever a strong word is present, whatever else is; moderate when only a mild word
      is; mild when neither is. */
  function SeverityOf(input: string): (level: Severity)
    ensures level == Severe <==> HasSevereWord(input)
    ensures level == Moderate <==> !HasSevereWord(input) && HasModerateWord(input)
    ensures level == Mild <==> !HasSevereWord(input) && !HasModerateWord(input)
  {
    if HasSevereWord(input) then Severe
    else if HasModerateWord(input) then Moderate
    else Mild
  }

  /** The severity is the input's alone: it is the same whichever table is searched and
      whatever is found in it. */
  lemma SeverityIgnoresMatches(input: string, db: seq<Symptom>, other: seq<Symptom>)
    ensures AnalysisOf(input, db).severity == AnalysisOf(input, other).severity == SeverityOf(input)
  {
  }

  /** "극심한" contains "심한", so it never decides the severity on its own: the test
      for it can be dropped without changing any result. */
  lemma ExtremeWordIsRedundant(input: string)
    ensures SeverityOf(input) == Severe <==> Includes(input, "심한") || Includes(input, "매우")
  {
    if Includes(input, "극심한") {
      IncludesPart(input, "극심한", 1, 3);
      assert "극심한"[1..3] == "심한";
    }
  }

  /** All `possibleConditions` of `found`, one entry after the other. */
  function ConditionsOf(found: seq<Symptom>): seq<string>
    decreases |found|
  {
    if found == [] then []
    else ConditionsOf(found[..|found| - 1]) + found[|found| - 1].data.possibleConditions
  }

  /** All `categories` of `found`, one entry after the other. */
  function CategoriesOf(found: seq<Symptom>): seq<string>
    decreases |found|
  {
    if found == [] then []
    else CategoriesOf(found[..|found| - 1]) + found[|found| - 1].data.categories
  }

  lemma {:induction false} ConditionsOfContains(found: seq<Symptom>, c: string)
    ensures c in ConditionsOf(found) <==> exists f :: f in found && c in f.data.possibleConditions
    decreases |found|
  {
    if found != [] {
      var n := |found| - 1;
      ConditionsOfContains(found[..n], c);
      assert found == found[..n] + [found[n]];
    }
  }

  lemma {:induction false} CategoriesOfContains(found: seq<Symptom>, c: string)
    ensures c in CategoriesOf(found) <==> exists f :: f in found && c in f.data.categories
    decreases |found|
  {
    if found != [] {
      var n := |found| - 1;
      CategoriesOfContains(found[..n], c);
      assert found == found[..n] + [found[n]];
    }
  }

  /** The result `analyzeMultipleSymptoms(input)` returns when the table is `db`. */
  function AnalysisOf(input: string, db: seq<Symptom>): (a: Analysis)
    ensures |a.foundSymptoms| <= |db| && forall s :: s in a.foundSymptoms ==> s in db
    ensures a.severity == SeverityOf(input)
    ensures a.foundSymptoms == [] ==> a.relatedConditions == [] && a.commonCategories == []
  {
    var found := MatchedIn(input, db);
    Analysis(found, SeverityOf(input), Distinct(ConditionsOf(found)), Distinct(CategoriesOf(found)))
  }

  /** The `for ... of Object.entries(symptomsDatabase)` loop: push every entry whose
      keywords the input mentions. */
  method FindSymptoms(input: string, db: seq<Symptom>) returns (foundSymptoms: seq<Symptom>)
    ensures foundSymptoms == MatchedIn(input, db)
  {
    foundSymptoms := [];
    for i := 0 to |db|
      invariant foundSymptoms == MatchedIn(input, db[..i])
    {
      var entry := db[i];
      assert db[..i + 1][..i] == db[..i];
      if HasKeyword(input, entry.data.keywords) {
        foundSymptoms := foundSymptoms + [entry];
      }
    }
    assert db[..|db|] == db;
  }

  /** `values.forEach(v => target.add(v))` on a set that so far had `added` added to it. */
  method AddEach(target: seq<string>, values: seq<string>, ghost added: seq<string>)
    returns (result: seq<string>)
    requires target == Distinct(added)
    ensures result == Distinct(added + values)
  {
    result := target;
    assert added + values[..0] == added;
    for j := 0 to |values|
      invariant result == Distinct(added + values[..j])
    {
      var v := values[j];
      assert added + values[..j + 1] == (added + values[..j]) + [v];
      DistinctSnoc(added + values[..j], v);
      if v !in result {
        result := result + [v];
      }
    }
    assert values[..|values|] == values;
  }

  /** The `foundSymptoms.forEach` loop filling `relatedConditions` and `commonCategories`. */
  method CollectUnions(foundSymptoms: seq<Symptom>)
    returns (relatedConditions: seq<string>, commonCategories: seq<string>)
    ensures relatedConditions == Distinct(ConditionsOf(foundSymptoms))
    ensures commonCategories == Distinct(CategoriesOf(foundSymptoms))
  {
    relatedConditions, commonCategories := [], [];
    for i := 0 to |foundSymptoms|
      invariant relatedConditions == Distinct(ConditionsOf(foundSymptoms[..i]))
      invariant commonCategories == Distinct(CategoriesOf(foundSymptoms[..i]))
    {
      var data := foundSymptoms[i].data;
      assert foundSymptoms[..i + 1][..i] == foundSymptoms[..i];
      relatedConditions := AddEach(relatedConditions, data.possibleConditions,
                                   ConditionsOf(foundSymptoms[..i]));
      commonCategories := AddEach(commonCategories, data.categories,
                                  CategoriesOf(foundSymptoms[..i]));
    }
    assert foundSymptoms[..|foundSymptoms|] == foundSymptoms;
  }

  /** `analyzeMultipleSymptoms`, step by step as the source does it, over the table `db`
      (the source's `symptomsDatabase`, which is `Database`). */
  method AnalyzeMultipleSymptoms(input: string, db: seq<Symptom>) returns (analysis: Analysis)
    ensures analysis == AnalysisOf(input, db)
  {
    var foundSymptoms := FindSymptoms(input, db);
    var severity := Mild;
    if HasSevereWord(input) {
      severity := Severe;
    } else if HasModerateWord(input) {
      severity := Moderate;
    }
    var relatedConditions, commonCategories := CollectUnions(foundSymptoms);
    analysis := Analysis(foundSymptoms, severity, relatedConditions, commonCategories);
  }

  /** A symptom of the table is found exactly when one of its keywords occurs verbatim in
      the input. */
  lemma MatchIffKeywordPresent(input: string, db: seq<Symptom>, i: nat)
    requires i < |db|
    ensures db[i] in AnalysisOf(input, db).foundSymptoms <==>
            exists k, p: nat :: k in db[i].data.keywords && OccursAt(input, k, p)
  {
    var found := AnalysisOf(input, db).foundSymptoms;
    MatchedInByPositions(input, db);
    var positions := MatchedPositions(input, db);
    if Matches(input, db[i]) {
      var j :| 0 <= j < |positions| && positions[j] == i;
      assert found[j] == db[i];
    }
    forall k | k in db[i].data.keywords
      ensures Includes(input, k) <==> exists p: nat :: OccursAt(input, k, p)
    {
      IncludesIffOccurs(input, k);
    }
  }

  /** The found symptoms follow the table's order and, the names being distinct, none is
      found twice. */
  lemma FoundInTableOrder(input: string, db: seq<Symptom>)
    requires NamesDistinct(db)
    ensures var found := AnalysisOf(input, db).foundSymptoms;
      forall j, k :: 0 <= j < k < |found| ==>
        exists p, q :: 0 <= p < q < |db| && found[j] == db[p] && found[k] == db[q]
    ensures NamesDistinct(AnalysisOf(input, db).foundSymptoms)
  {
    var found := AnalysisOf(input, db).foundSymptoms;
    MatchedInByPositions(input, db);
    var positions := MatchedPositions(input, db);
    forall j, k | 0 <= j < k < |found|
      ensures exists p, q :: 0 <= p < q < |db| && found[j] == db[p] && found[k] == db[q]
    {
      assert found[j] == db[positions[j]] && found[k] == db[positions[k]];
    }
  }

  /** The two unions hold each contributed value once, every value some matched symptom
      contributes and nothing else, in first-encountered order; with no match both are
      empty. */
  lemma UnionsAreExact(found: seq<Symptom>)
    ensures NoDuplicates(Distinct(ConditionsOf(found)))
    ensures NoDuplicates(Distinct(CategoriesOf(found)))
    ensures forall c :: c in Distinct(ConditionsOf(found)) <==>
              exists f :: f in found && c in f.data.possibleConditions
    ensures forall c :: c in Distinct(CategoriesOf(found)) <==>
              exists f :: f in found && c in f.data.categories
    ensures InFirstSeenOrder(Distinct(ConditionsOf(found)), ConditionsOf(found))
    ensures InFirstSeenOrder(Distinct(CategoriesOf(found)), CategoriesOf(found))
    ensures found == [] ==> Distinct(ConditionsOf(found)) == [] && Distinct(CategoriesOf(found)) == []
  {
    DistinctIsInsertionOrder(ConditionsOf(found));
    DistinctIsInsertionOrder(CategoriesOf(found));
    forall c
      ensures c in ConditionsOf(found) <==> exists f :: f in found && c in f.data.possibleConditions
      ensures c in CategoriesOf(found) <==> exists f :: f in found && c in f.data.categories
    {
      ConditionsOfContains(found, c);
      CategoriesOfContains(found, c);
    }
  }
}
