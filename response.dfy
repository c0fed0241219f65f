/** `generateResponse`: the bot message built from an analysis, either a fixed request to
    rephrase or advice blocks for the found symptoms followed by their warnings. */
module Response {
  import opened Text
  import opened SymptomDatabase
  import opened Analyzer

  /** The `type` of a message. */
  datatype Sender = User | Bot

  datatype Message = Message(sender: Sender, content: string)

  /** The reply when no symptom was found. */
  const Fallback := "죄송합니다. 말씀하신 증상을 정확히 이해하지 못했습니다. 증상을 조금 더 자세히 설명해 주시거나, 다른 표현으로 설명해 주시겠어요?"

  const CombinedHeader := "📊 종합 분석\n"
  const WarningHeader := "⚠️ 주의사항\n"
  const WarningSeparator := "\n\n"
  const Closing := "\n\n다른 도움이 필요하시면 언제든 말씀해 주세요!"

  const Opening := "떄문에 불편하시군요. 지금부터 증상 완화를 위해 다음 절차를 따라주세요.\n"
  const SeverityLabel := "• 심각도: "
  const RelatedLabel := "• 관련될 수 있는 증상: "
  const TreatmentLabel := "• 권장 조치: "
  const CategoriesLabel := "• 증상 카테고리: "
  const ConditionsLabel := "• 고려해볼 수 있는 상태: "

  /** The four lines written for one found symptom, with the advice of the given tier. */
  function SymptomBlock(s: Symptom, level: Severity): string
  {
    s.name + Opening + SeverityLabel + s.data.severity.For(level) + BlockTail(s)
  }

  /** The end of the severity line and the related-symptoms and treatment lines. */
  function BlockTail(s: Symptom): string
  {
    "\n"
    + RelatedLabel + Join(s.data.relatedSymptoms, ", ") + "\n"
    + TreatmentLabel + s.data.treatment + "\n\n"
  }

  /** A symptom's block opens with its name and carries, after the fixed opening and
      label, the advice of exactly the tier it is written with. */
  lemma BlockCarriesAdvice(s: Symptom, level: Severity)
    ensures OccursAt(SymptomBlock(s, level), s.name, 0)
    ensures OccursAt(SymptomBlock(s, level), s.data.severity.For(level),
                     |s.name| + |Opening| + |SeverityLabel|)
  {
    FourthOfFive(s.name, Opening, SeverityLabel, s.data.severity.For(level), BlockTail(s));
  }

  /** A symptom's block lists its related symptoms, joined by commas, right after the
      severity line and the label, and ends with its treatment and a blank line. */
  lemma BlockCarriesLines(s: Symptom, level: Severity)
    ensures OccursAt(SymptomBlock(s, level), Join(s.data.relatedSymptoms, ", "),
                     |s.name| + |Opening| + |SeverityLabel| + |s.data.severity.For(level)|
                     + 1 + |RelatedLabel|)
    ensures OccursAt(SymptomBlock(s, level), s.data.treatment,
                     |SymptomBlock(s, level)| - |s.data.treatment| - 2)
  {
    var head := s.name + Opening + SeverityLabel + s.data.severity.For(level);
    ThirdAndSixthOfSeven(head, "\n", RelatedLabel, Join(s.data.relatedSymptoms, ", "), "\n",
                         TreatmentLabel, s.data.treatment, "\n\n");
  }

  /** The blocks of all of `found`, one after the other. */
  function Blocks(found: seq<Symptom>, level: Severity): string
    decreases |found|
  {
    if found == [] then ""
    else Blocks(found[..|found| - 1], level) + SymptomBlock(found[|found| - 1], level)
  }

  /** The block summarising the unions, written when several symptoms were found. */
  function CombinedBlock(a: Analysis): (r: string)
    ensures CombinedHeader <= r
  {
    var lines := CategoriesLabel + Join(a.commonCategories, ", ") + "\n"
      + ConditionsLabel + Join(a.relatedConditions, ", ") + "\n\n";
    FrontIsPrefix(CombinedHeader, lines);
    CombinedHeader + lines
  }

  /** The combined block lists the union of categories after its header and the first
      label, and the union of conditions after the second label. */
  lemma CombinedBlockLists(a: Analysis)
    ensures OccursAt(CombinedBlock(a), Join(a.commonCategories, ", "),
                     |CombinedHeader| + |CategoriesLabel|)
    ensures OccursAt(CombinedBlock(a), Join(a.relatedConditions, ", "),
                     |CombinedHeader| + |CategoriesLabel| + |Join(a.commonCategories, ", ")|
                     + 1 + |ConditionsLabel|)
  {
    SecondAndFifthOfSix(CombinedHeader, CategoriesLabel, Join(a.commonCategories, ", "), "\n",
                        ConditionsLabel, Join(a.relatedConditions, ", "), "\n\n");
  }

  /** `foundSymptoms.map(({ data }) => data.warning)`. */
  function WarningsOf(found: seq<Symptom>): seq<string>
  {
    seq(|found|, i requires 0 <= i < |found| => found[i].data.warning)
  }

  /** The section after the blocks: the warning header, the warnings, the closing line. */
  function WarningSection(found: seq<Symptom>): string
  {
    WarningHeader + Join(WarningsOf(found), WarningSeparator) + Closing
  }

  /** What follows the blocks: the combined block when several symptoms were found, then
      the warning section. */
  function Conclusion(a: Analysis): string
  {
    (if |a.foundSymptoms| > 1 then CombinedBlock(a) else "") + WarningSection(a.foundSymptoms)
  }

  /** The message `generateResponse(a)` returns. */
  function ResponseOf(a: Analysis): (m: Message)
    ensures m.sender == Bot
  {
    if |a.foundSymptoms| == 0 then Message(Bot, Fallback)
    else Message(Bot, Blocks(a.foundSymptoms, a.severity) + Conclusion(a))
  }

  /** The `foundSymptoms.forEach` loop writing one block per found symptom. */
  method WriteBlocks(found: seq<Symptom>, level: Severity) returns (response: string)
    ensures response == Blocks(found, level)
  {
    response := "";
    for i := 0 to |found|
      invariant response == Blocks(found[..i], level)
    {
      assert found[..i + 1][..i] == found[..i];
      response := response + SymptomBlock(found[i], level);
    }
    assert found[..|found|] == found;
  }

  /** The rest of `generateResponse` after the blocks: the combined block when several
      symptoms were found, the warning header, the joined warnings and the closing line,
      each appended to `response`. */
  method AppendConclusion(a: Analysis, prefix: string) returns (response: string)
    ensures response == prefix + Conclusion(a)
  {
    response := prefix;
    var combined := "";
    if |a.foundSymptoms| > 1 {
      response := response + CombinedBlock(a);
      combined := CombinedBlock(a);
    }
    var warnings := Join(WarningsOf(a.foundSymptoms), WarningSeparator);
    response := response + WarningHeader;
    response := response + warnings;
    response := response + Closing;
    Regroup(prefix, combined, WarningHeader, warnings, Closing);
  }

  /** `generateResponse`, appending to `response` as the source does. */
  method GenerateResponse(a: Analysis) returns (m: Message)
    ensures m == ResponseOf(a)
  {
    if |a.foundSymptoms| == 0 {
      return Message(Bot, Fallback);
    }
    var response := WriteBlocks(a.foundSymptoms, a.severity);
    response := AppendConclusion(a, response);
    m := Message(Bot, response);
  }

  /** The blocks of a prefix of the found symptoms begin the blocks of all of them. */
  lemma {:induction false} BlocksPrefix(found: seq<Symptom>, level: Severity, k: nat)
    requires k <= |found|
    ensures Blocks(found[..k], level) <= Blocks(found, level)
    decreases |found|
  {
    if k < |found| {
      var n := |found| - 1;
      assert found[..n][..k] == found[..k];
      BlocksPrefix(found[..n], level, k);
    } else {
      assert found[..k] == found;
    }
  }

  /** The reply is the fallback message exactly when nothing was found: any other reply
      ends with the closing sentence, whose last character the fallback does not end in. */
  lemma FallbackIffNothingFound(a: Analysis)
    ensures ResponseOf(a) == Message(Bot, Fallback) <==> |a.foundSymptoms| == 0
  {
    if |a.foundSymptoms| > 0 {
      var c := ResponseOf(a).content;
      assert c[|c| - 1] == Closing[|Closing| - 1] == '!';
      assert Fallback[|Fallback| - 1] == '?';
    }
  }

  /** With something found, the block of the `j`-th found symptom, written with the one
      severity of the analysis, starts right after the blocks of the symptoms before it. */
  lemma BlockAt(a: Analysis, j: nat)
    requires j < |a.foundSymptoms|
    ensures OccursAt(ResponseOf(a).content,
                     SymptomBlock(a.foundSymptoms[j], a.severity),
                     |Blocks(a.foundSymptoms[..j], a.severity)|)
  {
    var found, level := a.foundSymptoms, a.severity;
    var before, block := Blocks(found[..j], level), SymptomBlock(found[j], level);
    assert found[..j + 1][..j] == found[..j];
    assert Blocks(found[..j + 1], level) == before + block;
    OccursInContext(before, block, "", block, 0);
    assert before + block + "" == before + block;
    BlocksPrefix(found, level, j + 1);
    OccursInPrefix(before + block, Blocks(found, level), block, |before|);
    OccursInPrefix(Blocks(found, level), ResponseOf(a).content, block, |before|);
  }

  /** With something found, the blocks are followed by the optional combined block and the
      warning section, and by nothing else. */
  lemma AfterBlocks(a: Analysis)
    requires |a.foundSymptoms| > 0
    ensures var c, at := ResponseOf(a).content, |Blocks(a.foundSymptoms, a.severity)|;
      at <= |c| && c[at..] == Conclusion(a)
  {
    DropFront(Blocks(a.foundSymptoms, a.severity), Conclusion(a));
  }

  /** The two section headers start with different characters, so neither section can
      be mistaken for the other. */
  lemma HeadersDiffer(a: Analysis, found: seq<Symptom>)
    ensures CombinedHeader <= CombinedBlock(a) + WarningSection(found)
    ensures !(WarningHeader <= CombinedBlock(a) + WarningSection(found))
    ensures WarningHeader <= WarningSection(found)
    ensures !(CombinedHeader <= WarningSection(found))
  {
    assert (CombinedBlock(a) + WarningSection(found))[0] == '📊';
    assert WarningSection(found)[0] == '⚠';
  }

  /** Right after the blocks comes the combined-analysis block when more than one symptom
      was found, and the warning header directly when exactly one was. */
  lemma CombinedBlockIffSeveral(a: Analysis)
    requires |a.foundSymptoms| > 0
    ensures var c, at := ResponseOf(a).content, |Blocks(a.foundSymptoms, a.severity)|;
      at <= |c| && (CombinedHeader <= c[at..] <==> |a.foundSymptoms| > 1)
    ensures var c, at := ResponseOf(a).content, |Blocks(a.foundSymptoms, a.severity)|;
      at <= |c| && (WarningHeader <= c[at..] <==> |a.foundSymptoms| == 1)
  {
    AfterBlocks(a);
    HeadersDiffer(a, a.foundSymptoms);
    assert "" + WarningSection(a.foundSymptoms) == WarningSection(a.foundSymptoms);
  }

  /** With something found, the reply ends with the warning section. */
  lemma EndsWithWarningSection(a: Analysis)
    requires |a.foundSymptoms| > 0
    ensures var c, tail := ResponseOf(a).content, WarningSection(a.foundSymptoms);
      |tail| <= |c| && c[|c| - |tail|..] == tail
  {
    var c, tail := ResponseOf(a).content, WarningSection(a.foundSymptoms);
    var combined := if |a.foundSymptoms| > 1 then CombinedBlock(a) else "";
    var front := Blocks(a.foundSymptoms, a.severity) + combined;
    assert c == front + tail;
    DropFront(front, tail);
  }

  /** The warning section holds the warning of the `j`-th found symptom after the header,
      the warnings before it and one blank line: every found warning, in found order, with
      a blank line between neighbours. */
  lemma WarningSectionHoldsWarning(found: seq<Symptom>, j: nat)
    requires j < |found|
    ensures var ws := WarningsOf(found);
      OccursAt(WarningSection(found), found[j].data.warning,
               |WarningHeader| + |Join(ws[..j], WarningSeparator)| + if j == 0 then 0 else |WarningSeparator|)
  {
    var ws := WarningsOf(found);
    JoinItemAt(ws, WarningSeparator, j);
    OccursInContext(WarningHeader, Join(ws, WarningSeparator), Closing, ws[j],
                    |Join(ws[..j], WarningSeparator)| + if j == 0 then 0 else |WarningSeparator|);
  }

  /** From input to reply: the user is asked to rephrase exactly when no symptom of the
      table has a keyword in the input. */
  lemma ReplyIsFallbackIffNoKeyword(input: string, db: seq<Symptom>)
    ensures ResponseOf(AnalysisOf(input, db)) == Message(Bot, Fallback) <==>
            forall i :: 0 <= i < |db| ==> !Matches(input, db[i])
  {
    FallbackIffNothingFound(AnalysisOf(input, db));
    MatchedInByPositions(input, db);
    var positions := MatchedPositions(input, db);
    if |positions| > 0 {
      assert Matches(input, db[positions[0]]);
    }
  }
}
