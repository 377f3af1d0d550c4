/** The `POST` handler of app/api/translate/route.ts: validate the request, translate once. */
module TranslateRoute {
  import opened Types
  import opened JsValues
  import opened Gateways
  import opened Http

  /** The fields of the JSON body; a field that is absent or `null` is `None`. */
  datatype Request = Request(text: Option<string>, from: Option<string>, to: Option<string>)

  const RequiredError := "text, from, and to are required"
  const FromError := "from must be \"ko\" or \"en\""
  const ToError := "to must be \"ko\" or \"en\""

  function LangCode(l: Lang): string {
    match l
    case Ko => "ko"
    case En => "en"
  }

  /** The language a code names, if it is one of the two the relay knows. */
  function ParseLang(code: string): (l: Option<Lang>)
    ensures l.Some? <==> code == "ko" || code == "en"
  {
    if code == "ko" then Some(Ko) else if code == "en" then Some(En) else None
  }

  lemma LangCodeRoundTrip(l: Lang, code: string)
    ensures ParseLang(LangCode(l)) == Some(l)
    ensures ParseLang(code) == Some(l) ==> code == LangCode(l)
  {
  }

  /** The request is complete and names two known languages (possibly the same one). */
  predicate Acceptable(q: Request) {
    && Truthy(q.text) && Truthy(q.from) && Truthy(q.to)
    && ParseLang(q.from.value).Some? && ParseLang(q.to.value).Some?
  }

  /** Destructuring a `null` body throws, so it fails like a body that is not JSON. */
  function Post(body: Payload<Request>, translate: Translator): (r: (Response, seq<Call>))
    ensures !body.Parsed? ==> r == (Response(500, ErrorBody("Translation failed")), [])
    ensures body.Parsed? && !(Truthy(body.value.text) && Truthy(body.value.from) && Truthy(body.value.to)) ==>
              r == (Response(400, ErrorBody(RequiredError)), [])
    ensures body.Parsed? && Truthy(body.value.text) && Truthy(body.value.from) && Truthy(body.value.to) ==>
              && (ParseLang(body.value.from.value).None? ==> r == (Response(400, ErrorBody(FromError)), []))
              && (ParseLang(body.value.from.value).Some? && ParseLang(body.value.to.value).None? ==>
                    r == (Response(400, ErrorBody(ToError)), []))
    ensures body.Parsed? && Acceptable(body.value) ==>
              var q := body.value;
              var call := TranslateCall(q.text.value, ParseLang(q.from.value).value, ParseLang(q.to.value).value);
              && r.1 == [call]
              && r.0 == match translate(call.text, call.from, call.to)
                        case Translated(t) => Response(200, TranslatedBody(t))
                        case TranslationError(_) => Response(500, ErrorBody("Translation failed"))
    ensures r.0.status == 200 <==> body.Parsed? && Acceptable(body.value) && |r.1| == 1
                                   && translate(r.1[0].text, r.1[0].from, r.1[0].to).Translated?
  {
    match body
    case Malformed => (Response(500, ErrorBody("Translation failed")), [])
    case Null => (Response(500, ErrorBody("Translation failed")), [])
    case Parsed(q) =>
      if !Truthy(q.text) || !Truthy(q.from) || !Truthy(q.to) then
        (Response(400, ErrorBody(RequiredError)), [])
      else if q.from.value != "ko" && q.from.value != "en" then
        (Response(400, ErrorBody(FromError)), [])
      else if q.to.value != "ko" && q.to.value != "en" then
        (Response(400, ErrorBody(ToError)), [])
      else
        var from := if q.from.value == "ko" then Ko else En;
        var to := if q.to.value == "ko" then Ko else En;
        match translate(q.text.value, from, to)
        case Translated(t) => (Response(200, TranslatedBody(t)), [TranslateCall(q.text.value, from, to)])
        case TranslationError(_) =>
          (Response(500, ErrorBody("Translation failed")), [TranslateCall(q.text.value, from, to)])
  }
}
