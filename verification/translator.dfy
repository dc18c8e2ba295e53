/** `AbstractTranslator`: the fixed translate-and-classify pipeline every translator
    backend shares. Caching, localisation lookup and the backends' own network I/O
    are outside the model; the backend is a parameter. */
module AbstractTranslator {
  import opened Wrappers
  import opened Languages
  import opened Messages
  import opened Faults
  import opened ErrorClassification

  /** The parts of a translator the pipeline reads. */
  datatype Translator = Translator(
    id: string,
    name: string,
    supportedTargetLanguages: set<Lang>,
    contentLengthLimit: int)

  /** What running a block of code gives: a value, or the fault it threw. */
  datatype Attempt<T> = Returned(value: T) | Threw(fault: Fault)

  /** How the error boundary ends when it does not return: a fault wrapped in a
      `TranslateException`, or a fault rethrown as it was. */
  datatype Failure =
    | Wrapped(translatorId: string, translatorName: string, errorInfo: ErrorInfo, cause: Fault)
    | Raw(fault: Fault)

  /** What `translate` ends with: the backend's translation, or a failure. */
  datatype Outcome<T> = Success(translation: T) | Failed(failure: Failure)

  /** The object a failure throws: a wrapped fault is thrown as a `TranslateException`
      with the fault as its cause, a raw fault as itself. */
  function Thrown(e: Failure): Fault {
    match e
    case Wrapped(id, name, info, cause) => TranslateError(id, name, info, cause)
    case Raw(f) => f
  }

  /** What the caller of `translate` observes: the value returned or the object thrown. */
  function Observed<T>(o: Outcome<T>): Attempt<T> {
    match o
    case Success(t) => Returned(t)
    case Failed(e) => Threw(Thrown(e))
  }

  /** `defaultLangForLocale`: the process default language when the translator can
      translate into it, otherwise English. `processDefault` stands for `Lang.default`. */
  function DefaultLangForLocale(t: Translator, processDefault: Lang): (r: Lang)
    ensures processDefault in t.supportedTargetLanguages ==> r == processDefault
    ensures processDefault !in t.supportedTargetLanguages ==> r == English
    ensures r in t.supportedTargetLanguages || r == English
  {
    TakeIf(processDefault, (l: Lang) => l in t.supportedTargetLanguages).GetOr(English)
  }

  /** `onError`: never returns normally (its result is a `Failure`). A fault the
      classifier describes is wrapped with the translator's identity and kept as the
      cause; any other fault is rethrown unchanged. */
  function OnError(t: Translator, f: Fault, reasonPhrase: int -> string): (e: Failure)
    ensures e.Wrapped? <==> Table(f, reasonPhrase).Some?
    ensures e.Wrapped? ==>
              e.translatorId == t.id && e.translatorName == t.name && e.cause == f &&
              e.errorInfo == ErrorInfo(Table(f, reasonPhrase).value)
    ensures e.Raw? ==> e.fault == f
  {
    match CreateErrorInfo(f, reasonPhrase)
    case None => Raw(f)
    case Some(info) => Wrapped(t.id, t.name, info, f)
  }

  /** `checkError { action }`: the action's value, or its fault sent through `onError`. */
  function CheckError<T>(t: Translator, action: Attempt<T>, reasonPhrase: int -> string): (o: Outcome<T>)
    ensures o.Success? <==> action.Returned?
    ensures action.Returned? ==> o.translation == action.value
    ensures o.Failed? && o.failure.Wrapped? ==>
              o.failure.cause == action.fault &&
              o.failure.translatorId == t.id && o.failure.translatorName == t.name
    ensures o.Failed? && o.failure.Raw? ==>
              o.failure.fault == action.fault && Table(action.fault, reasonPhrase).None?
    ensures action.Threw? ==> (o.failure.Wrapped? <==> Table(action.fault, reasonPhrase).Some?)
    ensures o.Failed? && o.failure.Wrapped? ==>
              Some(o.failure.errorInfo.message) == Table(action.fault, reasonPhrase)
  {
    match action
    case Returned(v) => Success(v)
    case Threw(f) => Failed(OnError(t, f, reasonPhrase))
  }

  /** `translate`: check the content length, then delegate once to the backend, both
      inside one error boundary. `tooLong(text, limit)` stands for the condition under
      which `checkContentLength` throws its `ContentLengthLimitException`;
      `doTranslate` is the backend. */
  function Translate<T>(
    t: Translator,
    tooLong: (string, int) -> bool,
    doTranslate: (string, Lang, Lang) -> Attempt<T>,
    reasonPhrase: int -> string,
    text: string, srcLang: Lang, targetLang: Lang): (o: Outcome<T>)
    ensures o.Success? <==>
              !tooLong(text, t.contentLengthLimit) && doTranslate(text, srcLang, targetLang).Returned?
    ensures o.Success? ==> o.translation == doTranslate(text, srcLang, targetLang).value
    ensures tooLong(text, t.contentLengthLimit) ==>
              o == Failed(Wrapped(t.id, t.name, ErrorInfo(Plain(TextTooLongKey)), ContentLengthLimit))
    ensures !tooLong(text, t.contentLengthLimit) && doTranslate(text, srcLang, targetLang).Threw? ==>
              var f := doTranslate(text, srcLang, targetLang).fault;
              o.Failed? &&
              ((o.failure.Wrapped? && o.failure.cause == f &&
                o.failure.translatorId == t.id && o.failure.translatorName == t.name &&
                Some(o.failure.errorInfo.message) == Table(f, reasonPhrase)) ||
               (o.failure == Raw(f) && Table(f, reasonPhrase).None?))
  {
    CheckError(t,
      if tooLong(text, t.contentLengthLimit) then Threw(ContentLengthLimit)
      else doTranslate(text, srcLang, targetLang),
      reasonPhrase)
  }

  /** The `TranslateException` thrown for a wrapped fault has no description of its
      own, so no error boundary describes it again. */
  lemma WrappedIsNeverDescribedAgain(e: Failure, reasonPhrase: int -> string)
    requires e.Wrapped?
    ensures Thrown(e).TranslateError? && Thrown(e).cause == e.cause
    ensures Table(Thrown(e), reasonPhrase).None?
    ensures CreateErrorInfo(Thrown(e), reasonPhrase).None?
  {
  }

  /** When the length check rejects the text the backend is never consulted: any two
      backends give the same outcome. */
  lemma CheckPrecedesBackend<T>(
    t: Translator,
    tooLong: (string, int) -> bool,
    backend1: (string, Lang, Lang) -> Attempt<T>,
    backend2: (string, Lang, Lang) -> Attempt<T>,
    reasonPhrase: int -> string,
    text: string, srcLang: Lang, targetLang: Lang)
    requires tooLong(text, t.contentLengthLimit)
    ensures Translate(t, tooLong, backend1, reasonPhrase, text, srcLang, targetLang)
         == Translate(t, tooLong, backend2, reasonPhrase, text, srcLang, targetLang)
  {
  }

  /** Sending what escapes an error boundary through a second boundary changes nothing
      the caller observes, provided the first boundary left raw only faults without a
      description: a `TranslateException` has none, so it is rethrown, not wrapped again. */
  lemma SecondBoundaryChangesNothing<T>(outer: Translator, o: Outcome<T>, reasonPhrase: int -> string)
    requires o.Failed? && o.failure.Raw? ==> Table(o.failure.fault, reasonPhrase).None?
    ensures Observed(CheckError(outer, Observed(o), reasonPhrase)) == Observed(o)
  {
    match o
    case Success(_) =>
    case Failed(Raw(f)) =>
      assert CheckError(outer, Observed(o), reasonPhrase) == Failed(OnError(outer, f, reasonPhrase));
    case Failed(Wrapped(id, name, info, cause)) =>
      var thrown := TranslateError(id, name, info, cause);
      assert Table(thrown, reasonPhrase).None?;
      assert CheckError(outer, Observed(o), reasonPhrase) == Failed(Raw(thrown));
  }

  /** The backend of a translator that delegates to another translator's `translate`. */
  function Delegating<T>(
    inner: Translator,
    tooLong: (string, int) -> bool,
    backend: (string, Lang, Lang) -> Attempt<T>,
    reasonPhrase: int -> string): (string, Lang, Lang) -> Attempt<T>
  {
    (x: string, s: Lang, g: Lang) => Observed(Translate(inner, tooLong, backend, reasonPhrase, x, s, g))
  }

  /** A fault is wrapped at most once: when one translator's backend delegates to
      another translator, whatever escapes the inner `translate` escapes the outer one
      unchanged. */
  lemma WrappedAtMostOnce<T>(
    outer: Translator,
    inner: Translator,
    tooLong: (string, int) -> bool,
    backend: (string, Lang, Lang) -> Attempt<T>,
    reasonPhrase: int -> string,
    text: string, srcLang: Lang, targetLang: Lang)
    requires !tooLong(text, outer.contentLengthLimit)
    ensures Observed(Translate(outer, tooLong, Delegating(inner, tooLong, backend, reasonPhrase),
                               reasonPhrase, text, srcLang, targetLang))
         == Observed(Translate(inner, tooLong, backend, reasonPhrase, text, srcLang, targetLang))
  {
    var o := Translate(inner, tooLong, backend, reasonPhrase, text, srcLang, targetLang);
    SecondBoundaryChangesNothing(outer, o, reasonPhrase);
  }
}
