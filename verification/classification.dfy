/** `createErrorInfo`: the ordered, first-match-wins dispatch from a fault to an error
    description, or to no description at all. */
module ErrorClassification {
  import opened Wrappers
  import opened Messages
  import StatusCodes
  import opened Faults

  /** What a branch of the `when` evaluates to once it has caught the fault. */
  datatype Body =
    | Fixed(key: string)          // the key alone
    | WithLangName(key: string)   // the key with the unsupported language's display name
    | ByStatusCode                // the nested dispatch on the HTTP status code
    | WithIoMessage(key: string)  // the key with the fault's message, "" when it has none

  /** One branch `is C1, is C2, ... -> body` of the `when`. */
  datatype Branch = Branch(catches: seq<Class>, body: Body)

  /** The branch's `is` tests accept the fault. */
  predicate Catches(b: Branch, f: Fault) {
    exists c :: c in b.catches && IsInstance(f, c)
  }

  /** Kotlin's smart cast lets the body read the fields it needs. */
  predicate Readable(body: Body, f: Fault) {
    match body
    case Fixed(_) => true
    case WithLangName(_) => f.UnsupportedLanguage?
    case ByStatusCode => f.HttpStatus?
    case WithIoMessage(_) => HasMessage(f)
  }

  /** Every branch that catches `f` may read what its body reads. */
  predicate SmartCastsHold(bs: seq<Branch>, f: Fault) {
    forall i :: 0 <= i < |bs| ==> Catches(bs[i], f) ==> Readable(bs[i].body, f)
  }

  /** The branch bodies of the `createErrorInfo` dispatch, in source order. */
  const WhenBranches: seq<Branch> := [
    Branch([UnsupportedLanguageException], WithLangName(UnsupportedLanguageKey)),
    Branch([ConnectException, UnknownHostException], Fixed(NetworkConnectionKey)),
    Branch([SocketException, SSLException], Fixed(NetworkKey)),
    Branch([SocketTimeoutException], Fixed(NetworkTimeoutKey)),
    Branch([ContentLengthLimitException], Fixed(TextTooLongKey)),
    Branch([HttpStatusException], ByStatusCode),
    Branch([IOException], WithIoMessage(IoExceptionKey))
  ]

  /** The nested `when` over an HTTP status code; any code it does not name gets
      the protocol reason phrase, given here as `reasonPhrase`. */
  function StatusCodeMessage(code: int, reasonPhrase: int -> string): Message {
    if code == StatusCodes.TooManyRequests then Plain(TooManyRequestsKey)
    else if code == StatusCodes.Forbidden then Plain(InvalidAccountKey)
    else if code == StatusCodes.BadRequest then Plain(BadRequestKey)
    else if code == StatusCodes.ContentTooLarge then Plain(TextTooLongKey)
    else if code == StatusCodes.ServiceUnavailable then Plain(ServiceUnavailableKey)
    else if code == StatusCodes.InternalServerError then Plain(SystemErrorKey)
    else Verbatim(reasonPhrase(code))
  }

  /** The status codes that have a key of their own, as a table. */
  const StatusKeys: map<int, string> := map[
    StatusCodes.BadRequest := BadRequestKey,
    StatusCodes.Forbidden := InvalidAccountKey,
    StatusCodes.ContentTooLarge := TextTooLongKey,
    StatusCodes.TooManyRequests := TooManyRequestsKey,
    StatusCodes.InternalServerError := SystemErrorKey,
    StatusCodes.ServiceUnavailable := ServiceUnavailableKey
  ]

  /** The chain of status tests names each code once, so it is the table lookup:
      a named code gets exactly its key, any other code its reason phrase. */
  lemma StatusCodeMessageIsTable(code: int, reasonPhrase: int -> string)
    ensures StatusCodeMessage(code, reasonPhrase) ==
              if code in StatusKeys then Plain(StatusKeys[code]) else Verbatim(reasonPhrase(code))
  {
  }

  /** A body evaluated against a fault it has caught. */
  function Evaluate(body: Body, f: Fault, reasonPhrase: int -> string): Message
    requires Readable(body, f)
  {
    match body
    case Fixed(key) => Plain(key)
    case WithLangName(key) => Localised(key, [f.lang.langName])
    case ByStatusCode => StatusCodeMessage(f.statusCode, reasonPhrase)
    case WithIoMessage(key) => Localised(key, [f.message.GetOr("")])
  }

  /** First match wins: the body of the first branch that catches `f`, or `None`
      (the fallback branch, which returns null) when no branch does. */
  function FirstMatch(bs: seq<Branch>, f: Fault, reasonPhrase: int -> string): (r: Option<Message>)
    requires SmartCastsHold(bs, f)
    ensures r.None? <==> forall i :: 0 <= i < |bs| ==> !Catches(bs[i], f)
    ensures r.Some? ==> exists i :: 0 <= i < |bs| && Catches(bs[i], f) && r.value == Evaluate(bs[i].body, f, reasonPhrase)
    decreases |bs|
  {
    if bs == [] then None
    else if Catches(bs[0], f) then Some(Evaluate(bs[0].body, f, reasonPhrase))
    else
      assert forall i :: 1 <= i < |bs| ==> bs[i] == bs[1..][i - 1];
      FirstMatch(bs[1..], f, reasonPhrase)
  }

  /** The result of `FirstMatch` is decided by the earliest catching branch alone:
      the branches after it, even those that also catch `f`, are never consulted. */
  lemma {:induction false} FirstMatchIsEarliest(bs: seq<Branch>, f: Fault, reasonPhrase: int -> string, k: nat)
    requires SmartCastsHold(bs, f)
    requires k < |bs| && Catches(bs[k], f)
    requires forall j :: 0 <= j < k ==> !Catches(bs[j], f)
    ensures FirstMatch(bs, f, reasonPhrase) == Some(Evaluate(bs[k].body, f, reasonPhrase))
    decreases k
  {
    if k > 0 {
      assert !Catches(bs[0], f);
      assert forall j :: 0 <= j < k - 1 ==> bs[1..][j] == bs[j + 1];
      FirstMatchIsEarliest(bs[1..], f, reasonPhrase, k - 1);
    }
  }

  /** Every smart cast in the `createErrorInfo` dispatch is justified. */
  lemma WhenBranchesAreSound(f: Fault)
    ensures SmartCastsHold(WhenBranches, f)
  {
    InstanceFacts(f);
  }

  /** The order-free reading of the classification: one answer per kind of fault,
      with no reference to the order of the branches. */
  function Table(f: Fault, reasonPhrase: int -> string): Option<Message> {
    match f
    case UnsupportedLanguage(lang) => Some(Localised(UnsupportedLanguageKey, [lang.langName]))
    case Connect(_) => Some(Plain(NetworkConnectionKey))
    case UnknownHost(_) => Some(Plain(NetworkConnectionKey))
    case Socket(_) => Some(Plain(NetworkKey))
    case Ssl(_) => Some(Plain(NetworkKey))
    case SocketTimeout(_) => Some(Plain(NetworkTimeoutKey))
    case ContentLengthLimit => Some(Plain(TextTooLongKey))
    case HttpStatus(code, _) =>
      Some(if code in StatusKeys then Plain(StatusKeys[code]) else Verbatim(reasonPhrase(code)))
    case InterruptedIO(msg) => Some(Localised(IoExceptionKey, [msg.GetOr("")]))
    case IO(msg) => Some(Localised(IoExceptionKey, [msg.GetOr("")]))
    case TranslateError(_, _, _, _) => None
    case Other(_) => None
  }

  /** The index of the branch that the order-free table attributes to each kind of
      fault; `|WhenBranches|` for the kinds the table leaves unclassified. */
  function TableBranch(f: Fault): nat {
    match f
    case UnsupportedLanguage(_) => 0
    case Connect(_) => 1
    case UnknownHost(_) => 1
    case Socket(_) => 2
    case Ssl(_) => 2
    case SocketTimeout(_) => 3
    case ContentLengthLimit => 4
    case HttpStatus(_, _) => 5
    case InterruptedIO(_) => 6
    case IO(_) => 6
    case TranslateError(_, _, _, _) => 7
    case Other(_) => 7
  }

  /** No branch before the one the table names catches the fault, and that branch
      (when there is one) does. */
  lemma EarliestCatchingBranch(f: Fault)
    ensures TableBranch(f) < |WhenBranches| ==> Catches(WhenBranches[TableBranch(f)], f)
    ensures forall j :: 0 <= j < TableBranch(f) && j < |WhenBranches| ==> !Catches(WhenBranches[j], f)
  {
    InstanceFacts(f);
  }

  /** The table's entry for a fault is the body of the branch it names, evaluated. */
  lemma TableEntryIsBranchBody(f: Fault, reasonPhrase: int -> string)
    requires TableBranch(f) < |WhenBranches|
    requires Readable(WhenBranches[TableBranch(f)].body, f)
    ensures Table(f, reasonPhrase) == Some(Evaluate(WhenBranches[TableBranch(f)].body, f, reasonPhrase))
  {
    if f.HttpStatus? {
      StatusCodeMessageIsTable(f.statusCode, reasonPhrase);
    }
  }

  /** The ordered dispatch agrees with the order-free table on every fault: the order
      of the branches resolves each overlap the way the table says. */
  lemma {:induction false} WhenBranchesMatchTable(f: Fault, reasonPhrase: int -> string)
    ensures SmartCastsHold(WhenBranches, f)
    ensures FirstMatch(WhenBranches, f, reasonPhrase) == Table(f, reasonPhrase)
  {
    WhenBranchesAreSound(f);
    EarliestCatchingBranch(f);
    var k := TableBranch(f);
    if k < |WhenBranches| {
      FirstMatchIsEarliest(WhenBranches, f, reasonPhrase, k);
      TableEntryIsBranchBody(f, reasonPhrase);
    }
  }

  /** `createErrorInfo(throwable)`: the description for a fault, or `None` when the
      classifier does not recognise it. `reasonPhrase` stands for Netty's
      `HttpResponseStatus.valueOf(code).reasonPhrase()`. */
  function CreateErrorInfo(f: Fault, reasonPhrase: int -> string): (r: Option<ErrorInfo>)
    ensures r.None? <==> Table(f, reasonPhrase).None?
    ensures r.Some? ==> r.value == ErrorInfo(Table(f, reasonPhrase).value)
  {
    WhenBranchesMatchTable(f, reasonPhrase);
    match FirstMatch(WhenBranches, f, reasonPhrase)
    case None => None
    case Some(m) => Some(ErrorInfo(m))
  }

  /** Exactly the `IOException`s, unsupported-language faults and content-length faults
      are classified; every other throwable yields no description. */
  lemma ClassifiedExactly(f: Fault, reasonPhrase: int -> string)
    ensures CreateErrorInfo(f, reasonPhrase).Some? <==>
              IsInstance(f, IOException) ||
              IsInstance(f, UnsupportedLanguageException) ||
              IsInstance(f, ContentLengthLimitException)
  {
    InstanceFacts(f);
  }

  /** A `ConnectException` is also a `SocketException`, yet it is described as a
      connection failure, never as a generic network error. */
  lemma ConnectTakesPrecedence(f: Fault, reasonPhrase: int -> string)
    requires f.Connect?
    ensures IsInstance(f, SocketException)
    ensures CreateErrorInfo(f, reasonPhrase) == Some(ErrorInfo(Plain(NetworkConnectionKey)))
  {
    ConnectIsSocket(f);
  }

  /** The dispatch with the connection branch and the socket/TLS branch swapped. */
  const SwappedBranches: seq<Branch> :=
    [WhenBranches[0], WhenBranches[2], WhenBranches[1]] + WhenBranches[3..]

  /** The order of the two network branches matters: with them swapped, a
      `ConnectException` would be caught by the `SocketException` test first and
      described as a generic network error. */
  lemma {:induction false} SwappedOrderMisdescribesConnect(message: Option<string>, reasonPhrase: int -> string)
    ensures SmartCastsHold(SwappedBranches, Connect(message))
    ensures FirstMatch(SwappedBranches, Connect(message), reasonPhrase) == Some(Plain(NetworkKey))
    ensures CreateErrorInfo(Connect(message), reasonPhrase) == Some(ErrorInfo(Plain(NetworkConnectionKey)))
  {
    var f := Connect(message);
    InstanceFacts(f);
    assert SwappedBranches[1].catches == [SocketException, SSLException];
    assert Catches(SwappedBranches[1], f) by {
      assert SocketException in SwappedBranches[1].catches;
    }
    assert !Catches(SwappedBranches[0], f);
    FirstMatchIsEarliest(SwappedBranches, f, reasonPhrase, 1);
  }

  /** Text that is too long is reported the same way whether the local length check
      or the server (HTTP 413) rejects it. */
  lemma TextTooLongEitherWay(message: Option<string>, reasonPhrase: int -> string)
    ensures CreateErrorInfo(ContentLengthLimit, reasonPhrase) == Some(ErrorInfo(Plain(TextTooLongKey)))
    ensures CreateErrorInfo(HttpStatus(StatusCodes.ContentTooLarge, message), reasonPhrase)
              == Some(ErrorInfo(Plain(TextTooLongKey)))
  {
    var f := HttpStatus(StatusCodes.ContentTooLarge, message);
    assert StatusCodes.ContentTooLarge in StatusKeys;
    assert StatusKeys[StatusCodes.ContentTooLarge] == TextTooLongKey;
    assert Table(f, reasonPhrase) == Some(Plain(TextTooLongKey));
  }

  /** The description each kind of fault receives. */
  lemma DescriptionsByKind(f: Fault, reasonPhrase: int -> string)
    ensures f.UnsupportedLanguage? ==>
              CreateErrorInfo(f, reasonPhrase) == Some(ErrorInfo(Localised(UnsupportedLanguageKey, [f.lang.langName])))
    ensures f.Connect? || f.UnknownHost? ==>
              CreateErrorInfo(f, reasonPhrase) == Some(ErrorInfo(Plain(NetworkConnectionKey)))
    ensures f.Socket? || f.Ssl? ==>
              CreateErrorInfo(f, reasonPhrase) == Some(ErrorInfo(Plain(NetworkKey)))
    ensures f.SocketTimeout? ==>
              CreateErrorInfo(f, reasonPhrase) == Some(ErrorInfo(Plain(NetworkTimeoutKey)))
    ensures f.IO? || f.InterruptedIO? ==>
              CreateErrorInfo(f, reasonPhrase) ==
                Some(ErrorInfo(Localised(IoExceptionKey, [if f.message.Some? then f.message.value else ""])))
    ensures f.TranslateError? || f.Other? ==> CreateErrorInfo(f, reasonPhrase) == None
  {
  }

  /** The description of an HTTP status failure: each named code its own key, any
      other code its reason phrase. */
  lemma StatusDescriptions(code: int, message: Option<string>, reasonPhrase: int -> string)
    ensures var r := CreateErrorInfo(HttpStatus(code, message), reasonPhrase);
      && (code == 429 ==> r == Some(ErrorInfo(Plain(TooManyRequestsKey))))
      && (code == 403 ==> r == Some(ErrorInfo(Plain(InvalidAccountKey))))
      && (code == 400 ==> r == Some(ErrorInfo(Plain(BadRequestKey))))
      && (code == 413 ==> r == Some(ErrorInfo(Plain(TextTooLongKey))))
      && (code == 503 ==> r == Some(ErrorInfo(Plain(ServiceUnavailableKey))))
      && (code == 500 ==> r == Some(ErrorInfo(Plain(SystemErrorKey))))
      && (code !in {400, 403, 413, 429, 500, 503} ==> r == Some(ErrorInfo(Verbatim(reasonPhrase(code)))))
  {
    var f := HttpStatus(code, message);
    StatusCodeMessageIsTable(code, reasonPhrase);
    var m := StatusCodeMessage(code, reasonPhrase);
    assert CreateErrorInfo(f, reasonPhrase) == Some(ErrorInfo(m));
    if code in {400, 403, 413, 429, 500, 503} {
      assert code in StatusKeys;
    } else {
      assert m == Verbatim(reasonPhrase(code));
    }
  }
}

