/**
  The advisory list the browser client derives from one air-quality reading,
  and its rendering as HTML list items.
 */
module Recommendations {
  import opened Classifier

  /** The part of a 200 response the client uses: the overall index and three concentrations. */
  datatype Reading = Reading(overallAqi: real, pm25: real, no2: real, o3: real)

  const Danger: string := "A qualidade do ar está perigosa. **Evite atividades ao ar livre**."
  const Sensitive: string := "A qualidade do ar não está ideal. **Grupos sensíveis devem reduzir a exposição**."
  const Pm25Advice: string := "Devido aos altos níveis de PM2.5, **considere usar máscara e fechar janelas**."
  const No2Advice: string := "Evite áreas de tráfego intenso por longos períodos devido ao NO2."
  const O3Advice: string := "Em dias ensolarados, o Ozônio está alto. **Evite exercícios extenuantes ao ar livre**."
  const GoodAir: string := "A qualidade do ar está boa. Aproveite o ar livre!"

  const DangerAqi: real := 150.0
  const SensitiveAqi: real := 100.0

  /** At most one advisory for the overall index; the higher band wins. */
  function AqiAdvice(aqi: real): seq<string>
  {
    if aqi >= DangerAqi then [Danger]
    else if aqi >= SensitiveAqi then [Sensitive]
    else []
  }

  /** One advisory per pollutant labelled RUIM, in the order PM2.5, NO2, O3. */
  function PollutantAdvice(d: Reading): seq<string>
  {
    (if ClassifyPM25(d.pm25) == Ruim then [Pm25Advice] else [])
    + (if ClassifyNO2(d.no2) == Ruim then [No2Advice] else [])
    + (if ClassifyO3(d.o3) == Ruim then [O3Advice] else [])
  }

  /** The advisory list for a reading; the good-air message stands alone when nothing else applies. */
  function Advice(d: Reading): seq<string>
  {
    var s := AqiAdvice(d.overallAqi) + PollutantAdvice(d);
    if s == [] then [GoodAir] else s
  }

  /** The display position of each advisory: the index advisory first, then PM2.5, NO2, O3, the good-air message last. */
  function Slot(m: string): nat
  {
    if m == Danger || m == Sensitive then 0
    else if m == Pm25Advice then 1
    else if m == No2Advice then 2
    else if m == O3Advice then 3
    else 4
  }

  /** Strictly increasing slots: a fixed order with no advisory repeated. */
  ghost predicate InDisplayOrder(s: seq<string>)
  {
    forall i, j :: 0 <= i < j < |s| ==> Slot(s[i]) < Slot(s[j])
  }

  /** None of the six advisory texts equals another. */
  lemma AdvisoriesDistinct()
    ensures Danger != Sensitive && Danger != Pm25Advice && Danger != No2Advice
    ensures Danger != O3Advice && Danger != GoodAir
    ensures Sensitive != Pm25Advice && Sensitive != No2Advice && Sensitive != O3Advice
    ensures Sensitive != GoodAir
    ensures Pm25Advice != No2Advice && Pm25Advice != O3Advice && Pm25Advice != GoodAir
    ensures No2Advice != O3Advice && No2Advice != GoodAir
    ensures O3Advice != GoodAir
  {
    // The six texts have pairwise different lengths.
    assert |Danger| == 66 && |Sensitive| == 81 && |Pm25Advice| == 78;
    assert |No2Advice| == 65 && |O3Advice| == 86 && |GoodAir| == 49;
  }

  /** The list is never empty and holds at most four advisories. */
  lemma AdviceSize(d: Reading)
    ensures 1 <= |Advice(d)| <= 4
  {
  }

  /** The list is the good-air message alone exactly when the index is below 100 and no pollutant is RUIM. */
  lemma AdviceGoodIff(d: Reading)
    ensures Advice(d) == [GoodAir] <==>
      d.overallAqi < 100.0 && ClassifyPM25(d.pm25) != Ruim
      && ClassifyNO2(d.no2) != Ruim && ClassifyO3(d.o3) != Ruim
  {
    AdvisoriesDistinct();
    var s := AqiAdvice(d.overallAqi) + PollutantAdvice(d);
    if s != [] {
      assert s[0] in [Danger, Sensitive, Pm25Advice, No2Advice, O3Advice];
    }
  }

  /** At most one index advisory, chosen by the higher band, and when present it comes first. */
  lemma AqiAdviceFirst(d: Reading)
    ensures d.overallAqi >= 150.0 ==> Advice(d)[0] == Danger && Sensitive !in Advice(d)
    ensures 100.0 <= d.overallAqi < 150.0 ==> Advice(d)[0] == Sensitive && Danger !in Advice(d)
    ensures d.overallAqi < 100.0 ==> Danger !in Advice(d) && Sensitive !in Advice(d)
  {
    AdvisoriesDistinct();
    var s := AqiAdvice(d.overallAqi) + PollutantAdvice(d);
    assert forall m :: m in PollutantAdvice(d) ==> m in {Pm25Advice, No2Advice, O3Advice};
  }

  /** Each pollutant advisory is present exactly when that pollutant is labelled RUIM. */
  lemma PollutantAdviceIff(d: Reading)
    ensures Pm25Advice in Advice(d) <==> ClassifyPM25(d.pm25) == Ruim
    ensures No2Advice in Advice(d) <==> ClassifyNO2(d.no2) == Ruim
    ensures O3Advice in Advice(d) <==> ClassifyO3(d.o3) == Ruim
  {
    AdvisoriesDistinct();
    var s := AqiAdvice(d.overallAqi) + PollutantAdvice(d);
    assert forall m :: m in AqiAdvice(d.overallAqi) ==> m in {Danger, Sensitive};
  }

  /** The advisories appear in the fixed display order, none twice. */
  lemma AdviceOrdered(d: Reading)
    ensures InDisplayOrder(Advice(d))
  {
    AdvisoriesDistinct();
    var s := Advice(d);
    forall i, j | 0 <= i < j < |s| ensures Slot(s[i]) < Slot(s[j]) {
    }
  }

  /** The concatenation of `<li>` + advisory + `</li>` over the list, in order. */
  function ListHtml(recs: seq<string>): string
  {
    if recs == [] then "" else "<li>" + recs[0] + "</li>" + ListHtml(recs[1..])
  }

  /** Rendering distributes over concatenation of lists. */
  lemma {:induction false} ListHtmlAppend(a: seq<string>, b: seq<string>)
    ensures ListHtml(a + b) == ListHtml(a) + ListHtml(b)
  {
    if a == [] {
      assert a + b == b;
    } else {
      assert (a + b)[1..] == a[1..] + b;
      ListHtmlAppend(a[1..], b);
    }
  }

  /** One advisory renders as one list item. */
  lemma ListHtmlItem(m: string)
    ensures ListHtml([m]) == "<li>" + m + "</li>"
  {
    assert [m][1..] == [];
  }

  /** The client builds the advisory list with successive pushes, then renders it as list items. */
  method GerarRecomendacoes(d: Reading) returns (html: string)
    ensures html == ListHtml(Advice(d))
  {
    var recomendacoes: seq<string> := [];
    if d.overallAqi >= DangerAqi {
      recomendacoes := recomendacoes + [Danger];
    } else if d.overallAqi >= SensitiveAqi {
      recomendacoes := recomendacoes + [Sensitive];
    }
    assert recomendacoes == AqiAdvice(d.overallAqi);
    LabelInjective(ClassifyPM25(d.pm25), Ruim);
    LabelInjective(ClassifyNO2(d.no2), Ruim);
    LabelInjective(ClassifyO3(d.o3), Ruim);
    ghost var aqiPart := recomendacoes;
    var pm25Class := Label(ClassifyPM25(d.pm25));
    if pm25Class == "RUIM" {
      recomendacoes := recomendacoes + [Pm25Advice];
    }
    assert recomendacoes == aqiPart + (if ClassifyPM25(d.pm25) == Ruim then [Pm25Advice] else []);
    var no2Class := Label(ClassifyNO2(d.no2));
    if no2Class == "RUIM" {
      recomendacoes := recomendacoes + [No2Advice];
    }
    assert recomendacoes == aqiPart + (if ClassifyPM25(d.pm25) == Ruim then [Pm25Advice] else [])
      + (if ClassifyNO2(d.no2) == Ruim then [No2Advice] else []);
    var o3Class := Label(ClassifyO3(d.o3));
    if o3Class == "RUIM" {
      recomendacoes := recomendacoes + [O3Advice];
    }
    assert recomendacoes == aqiPart + PollutantAdvice(d);
    if |recomendacoes| == 0 {
      recomendacoes := recomendacoes + [GoodAir];
    }
    assert recomendacoes == Advice(d);
    html := ListHtml(recomendacoes);
  }

  /** A reading with index 160 and PM2.5 at 40: the danger advisory, then the PM2.5 advisory. */
  lemma ScenarioDangerAndParticles()
    ensures Advice(Reading(160.0, 40.0, 50.0, 90.0)) == [Danger, Pm25Advice]
    ensures ClassifyPM25(40.0) == Ruim && ClassifyNO2(50.0) == Otimo && ClassifyO3(90.0) == Otimo
  {
  }
}
