/**
  The query cycle of the browser client: trim and validate the city, dispatch
  on the response status to the text shown, hold the loading spinner for the
  duration of the request, and keep a single chart slot that disposes its old
  chart before a new one is drawn.  The DOM, the network and the chart library
  are abstracted into the fields of `Page` and the parameters of its methods.
 */
module Client {
  import opened Classifier
  import opened Recommendations
  import opened Wrappers

  // ---------------------------------------------------------------- trimming

  /** ECMAScript WhiteSpace and LineTerminator code points: what String.prototype.trim removes. */
  predicate IsJsSpace(c: char)
  {
    c == '\t' || c == '\n' || c == '\U{0B}' || c == '\U{0C}' || c == '\r' || c == ' '
    || c == '\U{A0}' || c == '\U{1680}' || ('\U{2000}' <= c <= '\U{200A}')
    || c == '\U{2028}' || c == '\U{2029}' || c == '\U{202F}' || c == '\U{205F}'
    || c == '\U{3000}' || c == '\U{FEFF}'
  }

  /** The index of the first character at or after `i` that is not white space (or |s|). */
  function SkipSpaces(s: string, i: nat): (r: nat)
    requires i <= |s|
    ensures i <= r <= |s|
    decreases |s| - i
  {
    if i < |s| && IsJsSpace(s[i]) then SkipSpaces(s, i + 1) else i
  }

  /** The index just past the last character before `j` that is not white space (or 0). */
  function SkipSpacesBack(s: string, j: nat): (r: nat)
    requires j <= |s|
    ensures r <= j
  {
    if j > 0 && IsJsSpace(s[j - 1]) then SkipSpacesBack(s, j - 1) else j
  }

  function TrimStart(s: string): string
  {
    s[SkipSpaces(s, 0)..]
  }

  function TrimEnd(s: string): string
  {
    s[..SkipSpacesBack(s, |s|)]
  }

  /** `String.prototype.trim`. */
  function Trim(s: string): string
  {
    TrimEnd(TrimStart(s))
  }

  /** Skipping forward crosses only white space and stops at the first other character. */
  lemma {:induction false} SkipSpacesSpec(s: string, i: nat)
    requires i <= |s|
    ensures forall k :: i <= k < SkipSpaces(s, i) ==> IsJsSpace(s[k])
    ensures SkipSpaces(s, i) < |s| ==> !IsJsSpace(s[SkipSpaces(s, i)])
    decreases |s| - i
  {
    if i < |s| && IsJsSpace(s[i]) {
      SkipSpacesSpec(s, i + 1);
    }
  }

  /** Skipping backward crosses only white space and stops after the last other character. */
  lemma {:induction false} SkipSpacesBackSpec(s: string, j: nat)
    requires j <= |s|
    ensures forall k :: SkipSpacesBack(s, j) <= k < j ==> IsJsSpace(s[k])
    ensures SkipSpacesBack(s, j) > 0 ==> !IsJsSpace(s[SkipSpacesBack(s, j) - 1])
  {
    if j > 0 && IsJsSpace(s[j - 1]) {
      SkipSpacesBackSpec(s, j - 1);
    }
  }

  /** TrimStart drops exactly a prefix of white space and stops at the first other character. */
  lemma TrimStartSuffix(s: string)
    ensures |TrimStart(s)| <= |s|
    ensures TrimStart(s) == s[|s| - |TrimStart(s)|..]
    ensures forall k :: 0 <= k < |s| - |TrimStart(s)| ==> IsJsSpace(s[k])
    ensures TrimStart(s) != [] ==> !IsJsSpace(TrimStart(s)[0])
  {
    SkipSpacesSpec(s, 0);
  }

  /** TrimEnd drops exactly a suffix of white space and stops at the last other character. */
  lemma TrimEndPrefix(s: string)
    ensures |TrimEnd(s)| <= |s|
    ensures TrimEnd(s) == s[..|TrimEnd(s)|]
    ensures forall k :: |TrimEnd(s)| <= k < |s| ==> IsJsSpace(s[k])
    ensures TrimEnd(s) != [] ==> !IsJsSpace(TrimEnd(s)[|TrimEnd(s)| - 1])
  {
    SkipSpacesBackSpec(s, |s|);
  }

  /** A trimmed city is empty exactly when the input held nothing but white space. */
  lemma TrimEmptyIff(s: string)
    ensures Trim(s) == [] <==> forall k :: 0 <= k < |s| ==> IsJsSpace(s[k])
  {
    var t := TrimStart(s);
    TrimStartSuffix(s);
    TrimEndPrefix(t);
    if Trim(s) != [] {
      assert t[0] == s[|s| - |t|];
    }
  }

  /** The trimmed city has no white space at either end. */
  lemma TrimEnds(s: string)
    ensures Trim(s) != [] ==> !IsJsSpace(Trim(s)[0]) && !IsJsSpace(Trim(s)[|Trim(s)| - 1])
  {
    var t := TrimStart(s);
    TrimStartSuffix(s);
    TrimEndPrefix(t);
    if Trim(s) != [] {
      assert Trim(s)[0] == t[0];
    }
  }

  // ---------------------------------------------------------------- responses

  /** How the body of a response parses, as far as the client looks at it. */
  datatype Body =
    | AirQuality(reading: Reading)   // JSON with overall_aqi and the three pollutant records
    | ErrorObject(error: string)     // JSON object with a string `error` field
    | JsonNull                       // the JSON literal null: reading any property of it throws
    | OtherJson                      // any other JSON value: a missing property reads as undefined
    | NotJson                        // a body that does not parse as JSON

  /** What the request produced: a response, or a rejected fetch. */
  datatype FetchOutcome = Responded(status: int, body: Body) | Rejected

  /** The content written to the result container. */
  datatype Shown =
    | Text(text: string)
    | Summary(city: string, reading: Reading, pm25: Band, no2: Band, o3: Band, advice: string)

  const PromptText: string := "Por favor, digite uma cidade."
  // The longer texts are written in two pieces so that proofs can compare them by their first
  // piece; the verifier does not look inside long string literals character by character.
  const NotFoundText: string := "Cidade " + "não encontrada. Verifique o nome e tente novamente."
  const GenericText: string := "Ocorreu " + "um erro ao consultar a qualidade do ar. Tente novamente mais tarde."
  const ConnectionText: string := "Erro ao " + "conectar-se com o servidor. Verifique sua conexão ou tente mais tarde."
  const ErrorPrefix: string := "Erro: "
  /** What a JavaScript template literal writes for the missing `error` field. */
  const Undefined: string := "undefined"

  /** The summary drawn for a reading: the city, the reading, the three labels and the advisories as list items. */
  function SummaryOf(city: string, r: Reading): Shown
  {
    Summary(city, r, ClassifyPM25(r.pm25), ClassifyNO2(r.no2), ClassifyO3(r.o3), ListHtml(Advice(r)))
  }

  /** The result text for a city and a fetch outcome; anything thrown while reading the body lands in the catch. */
  function Display(city: string, o: FetchOutcome): Shown
  {
    match o
    case Rejected => Text(ConnectionText)
    case Responded(status, body) =>
      if status == 200 then
        (if body.AirQuality? then SummaryOf(city, body.reading) else Text(ConnectionText))
      else if status == 400 then
        (match body
         case ErrorObject(e) => Text(ErrorPrefix + e)
         case JsonNull => Text(ConnectionText)
         case NotJson => Text(ConnectionText)
         case _ => Text(ErrorPrefix + Undefined))
      else if status == 404 then Text(NotFoundText)
      else Text(GenericText)
  }

  /** Only a 200 response whose body is a reading draws a chart. */
  predicate Succeeded(o: FetchOutcome)
  {
    o.Responded? && o.status == 200 && o.body.AirQuality?
  }

  /** The error classes of the cycle (the empty-input case never reaches a request). */
  datatype Kind = Success | ClientError | NotFoundError | ServerError | TransportError

  /** The class an outcome falls into, judged by which branch handles it. */
  function KindOf(o: FetchOutcome): Kind
  {
    match o
    case Rejected => TransportError
    case Responded(status, body) =>
      if status == 200 then (if body.AirQuality? then Success else TransportError)
      else if status == 400 then (if body.JsonNull? || body.NotJson? then TransportError else ClientError)
      else if status == 404 then NotFoundError
      else ServerError
  }

  /** The shown text identifies the error class: outcomes of different classes never display alike. */
  lemma DisplayDeterminesKind(city: string, o1: FetchOutcome, o2: FetchOutcome)
    requires Display(city, o1) == Display(city, o2)
    ensures KindOf(o1) == KindOf(o2)
  {
    // The four fixed texts and the "Erro: " prefix part at their first characters.
    assert NotFoundText[0] == 'C' && GenericText[0] == 'O';
    assert ConnectionText[0] == 'E' && ConnectionText[4] == ' ' && ErrorPrefix[4] == ':';
    assert |NotFoundText| != |GenericText| && |NotFoundText| != |ConnectionText|;
    assert |GenericText| != |ConnectionText|;
    forall e | true
      ensures (ErrorPrefix + e)[0] == 'E' && (ErrorPrefix + e)[4] == ':'
    {
    }
  }

  /** The text shown for each response class, and that only success draws a summary. */
  lemma DisplayCases(city: string, o: FetchOutcome)
    ensures Display(city, o).Summary? <==> Succeeded(o)
    ensures Succeeded(o) ==> Display(city, o).city == city && Display(city, o).reading == o.body.reading
    ensures o.Responded? && o.status == 400 && o.body.ErrorObject? ==> Display(city, o) == Text("Erro: " + o.body.error)
    ensures o.Responded? && o.status == 400 && (o.body.OtherJson? || o.body.AirQuality?) ==> Display(city, o) == Text("Erro: undefined")
    ensures o.Responded? && o.status == 400 && (o.body.JsonNull? || o.body.NotJson?) ==> Display(city, o) == Text(ConnectionText)
    ensures o.Responded? && o.status == 404 ==> Display(city, o) == Text(NotFoundText)
    ensures o.Responded? && o.status !in {200, 400, 404} ==> Display(city, o) == Text(GenericText)
    ensures KindOf(o) == TransportError ==> Display(city, o) == Text(ConnectionText)
  {
  }

  /** A 400 reply of `{"error": "invalid city name"}` shows that message after "Erro: ". */
  lemma ScenarioBadRequest(city: string)
    ensures Display(city, Responded(400, ErrorObject("invalid city name"))) == Text("Erro: invalid city name")
  {
  }

  /** A 400 reply whose body is a reading has no `error` property: it shows "Erro: undefined", a client error. */
  lemma ScenarioReadingBadRequest(city: string, r: Reading)
    ensures Display(city, Responded(400, AirQuality(r))) == Text("Erro: undefined")
    ensures KindOf(Responded(400, AirQuality(r))) == ClientError
  {
  }

  /** A 400 reply whose body is `null` throws on `erro.error` and shows the connection text, like a rejected fetch. */
  lemma ScenarioNullBadRequest(city: string)
    ensures Display(city, Responded(400, JsonNull)) == Display(city, Rejected)
    ensures KindOf(Responded(400, JsonNull)) == TransportError
  {
  }

  // ---------------------------------------------------------------- the page

  /** A bar chart of the three concentrations, in the order PM2.5, NO2, O3. */
  datatype Chart = Chart(values: seq<real>)

  /** The chart drawn for a reading. */
  function ChartOf(r: Reading): Chart
  {
    Chart([r.pm25, r.no2, r.o3])
  }

  /** The visible state of the page and the single chart slot. */
  class Page {
    var result: Shown
    var spinnerVisible: bool
    var chartVisible: bool
    /** The chart slot; it still refers to the old chart between its disposal and its replacement. */
    var chart: Option<Chart>
    /** How many charts were constructed and how many disposed. */
    var created: nat
    var disposed: nat

    /** Charts constructed and not yet disposed. */
    function LiveCharts(): int
      reads this
    {
      created - disposed
    }

    /** The slot owns every live chart: one when it holds a chart, none when it is empty. */
    ghost predicate Valid()
      reads this
    {
      disposed <= created && LiveCharts() == (if chart.Some? then 1 else 0)
    }

    constructor ()
      ensures Valid()
      ensures result == Text("") && !spinnerVisible && !chartVisible
      ensures chart == None && created == 0 && disposed == 0
    {
      result := Text("");
      spinnerVisible := false;
      chartVisible := false;
      chart := None;
      created := 0;
      disposed := 0;
    }

    /** Dispose the chart in the slot if there is one, then construct the new one in its place. */
    method ReplaceChart(c: Chart)
      requires Valid()
      modifies this`chart, this`created, this`disposed
      ensures Valid()
      ensures chart == Some(c) && LiveCharts() == 1
      ensures created == old(created) + 1
      ensures disposed == old(disposed) + (if old(chart).Some? then 1 else 0)
    {
      if chart.Some? {
        disposed := disposed + 1;
      }
      chart := Some(c);
      created := created + 1;
    }

    /** Up to the request: validate the input and, if a request is due, clear the result, show the spinner and hide the chart. */
    method Begin(input: string) returns (request: Option<string>)
      requires Valid()
      modifies this`result, this`spinnerVisible, this`chartVisible
      ensures Valid()
      ensures request == (if Trim(input) == [] then None else Some(Trim(input)))
      ensures request.None? ==> result == Text(PromptText) && spinnerVisible == old(spinnerVisible)
      ensures request.Some? ==> result == Text("") && spinnerVisible
      ensures !chartVisible
    {
      var cidade := Trim(input);
      if cidade == [] {
        result := Text(PromptText);
        chartVisible := false;
        return None;
      }
      result := Text("");
      spinnerVisible := true;
      chartVisible := false;
      request := Some(cidade);
    }

    /** After the request: show the text for the outcome, draw the chart on success, and always hide the spinner. */
    method Finish(city: string, o: FetchOutcome)
      requires Valid()
      requires !chartVisible
      modifies this
      ensures Valid()
      ensures result == Display(city, o)
      ensures !spinnerVisible
      ensures chartVisible == Succeeded(o)
      ensures Succeeded(o) ==> chart == Some(ChartOf(o.body.reading)) && LiveCharts() == 1
      ensures Succeeded(o) ==> disposed == old(disposed) + (if old(chart).Some? then 1 else 0)
      ensures !Succeeded(o) ==> chart == old(chart) && created == old(created) && disposed == old(disposed)
    {
      match o {
        case Rejected =>
          result := Text(ConnectionText);
        case Responded(status, body) =>
          if status == 200 {
            if body.AirQuality? {
              var dados := body.reading;
              var advice := GerarRecomendacoes(dados);
              result := Summary(city, dados, ClassifyPM25(dados.pm25), ClassifyNO2(dados.no2),
                                ClassifyO3(dados.o3), advice);
              ReplaceChart(ChartOf(dados));
              chartVisible := true;
            } else {
              // reading a missing pollutant record throws; the catch writes the connection text
              result := Text(ConnectionText);
            }
          } else if status == 400 {
            match body {
              case ErrorObject(e) => result := Text(ErrorPrefix + e);
              // a body that does not parse, or `null.error`, throws; the catch writes the connection text
              case JsonNull => result := Text(ConnectionText);
              case NotJson => result := Text(ConnectionText);
              // any other parsed value has no `error` property, which the template writes as "undefined"
              case _ => result := Text(ErrorPrefix + Undefined);
            }
          } else if status == 404 {
            result := Text(NotFoundText);
          } else {
            result := Text(GenericText);
          }
      }
      // the finally block
      spinnerVisible := false;
    }

    /** One whole query cycle for the typed input and what the network does with the request. */
    method ConsultarAr(input: string, o: FetchOutcome) returns (request: Option<string>)
      requires Valid()
      modifies this
      ensures Valid()
      ensures request == (if Trim(input) == [] then None else Some(Trim(input)))
      ensures request.None? ==> result == Text(PromptText) && !chartVisible
      ensures request.None? ==> spinnerVisible == old(spinnerVisible)
      ensures request.None? ==> chart == old(chart) && created == old(created) && disposed == old(disposed)
      ensures request.Some? ==> result == Display(request.value, o) && !spinnerVisible
      ensures request.Some? ==> chartVisible == Succeeded(o)
      ensures request.Some? && Succeeded(o) ==> chart == Some(ChartOf(o.body.reading)) && LiveCharts() == 1
      ensures request.Some? && Succeeded(o) ==> created == old(created) + 1
      ensures request.Some? && Succeeded(o) ==> disposed == old(disposed) + (if old(chart).Some? then 1 else 0)
      ensures request.Some? && !Succeeded(o) ==> chart == old(chart) && LiveCharts() == old(LiveCharts())
      ensures !old(spinnerVisible) ==> !spinnerVisible
    {
      request := Begin(input);
      if request.Some? {
        Finish(request.value, o);
      }
    }
  }

  /** Two successful queries in a row dispose the first chart and leave exactly one live. */
  method ScenarioTwoQueries(a: string, b: string, r1: Reading, r2: Reading)
    returns (live: int, created: nat, disposed: nat, shown: Option<Chart>)
    requires Trim(a) != [] && Trim(b) != []
    ensures live == 1 && created == 2 && disposed == 1
    ensures shown == Some(ChartOf(r2))
  {
    var page := new Page();
    var q1 := page.ConsultarAr(a, Responded(200, AirQuality(r1)));
    assert page.LiveCharts() == 1 && page.created == 1 && page.disposed == 0;
    var q2 := page.ConsultarAr(b, Responded(200, AirQuality(r2)));
    assert !page.spinnerVisible && page.chartVisible;
    live, created, disposed, shown := page.LiveCharts(), page.created, page.disposed, page.chart;
  }
}
