/** Faults (Java throwables) that can reach the translator's error boundary, and the
    subtype relation that Kotlin's `is` tests consult. */
module Faults {
  import opened Wrappers
  import opened Languages
  import opened Messages

  /** The exception classes the classifier names, plus `Throwable` as the root. */
  datatype Class =
    | Throwable
    | IOException
    | SocketException
    | ConnectException
    | UnknownHostException
    | InterruptedIOException
    | SocketTimeoutException
    | SSLException
    | HttpStatusException
    | UnsupportedLanguageException
    | ContentLengthLimitException
    | TranslateException

  /** The direct superclass among the classes above (`Exception` and other
      intermediate classes that no test names are skipped). The last three classes
      are declared outside the modelled file; they are placed outside the
      `IOException` tree. */
  function Superclass(c: Class): Option<Class> {
    match c
    case Throwable => None
    case IOException => Some(Throwable)
    case SocketException => Some(IOException)
    case ConnectException => Some(SocketException)
    case UnknownHostException => Some(IOException)
    case InterruptedIOException => Some(IOException)
    case SocketTimeoutException => Some(InterruptedIOException)
    case SSLException => Some(IOException)
    case HttpStatusException => Some(IOException)
    case UnsupportedLanguageException => Some(Throwable)
    case ContentLengthLimitException => Some(Throwable)
    case TranslateException => Some(Throwable)
  }

  /** Distance from `Throwable`; strictly decreases along `Superclass`. */
  function Depth(c: Class): nat {
    match c
    case Throwable => 0
    case IOException => 1
    case SocketException => 2
    case ConnectException => 3
    case UnknownHostException => 2
    case InterruptedIOException => 2
    case SocketTimeoutException => 3
    case SSLException => 2
    case HttpStatusException => 2
    case UnsupportedLanguageException => 1
    case ContentLengthLimitException => 1
    case TranslateException => 1
  }

  /** `c` is `d` or inherits from it: the reflexive-transitive closure of `Superclass`. */
  predicate IsSubclass(c: Class, d: Class)
    decreases Depth(c)
  {
    c == d || (Superclass(c).Some? && IsSubclass(Superclass(c).value, d))
  }

  /** The same relation written out as a table: every class with all its ancestors. */
  function Ancestors(c: Class): set<Class> {
    match c
    case Throwable => {Throwable}
    case IOException => {IOException, Throwable}
    case SocketException => {SocketException, IOException, Throwable}
    case ConnectException => {ConnectException, SocketException, IOException, Throwable}
    case UnknownHostException => {UnknownHostException, IOException, Throwable}
    case InterruptedIOException => {InterruptedIOException, IOException, Throwable}
    case SocketTimeoutException => {SocketTimeoutException, InterruptedIOException, IOException, Throwable}
    case SSLException => {SSLException, IOException, Throwable}
    case HttpStatusException => {HttpStatusException, IOException, Throwable}
    case UnsupportedLanguageException => {UnsupportedLanguageException, Throwable}
    case ContentLengthLimitException => {ContentLengthLimitException, Throwable}
    case TranslateException => {TranslateException, Throwable}
  }

  /** The superclass chain and the ancestor table agree on every pair of classes. */
  lemma {:induction false} SubclassIsAncestor(c: Class, d: Class)
    ensures IsSubclass(c, d) <==> d in Ancestors(c)
    decreases Depth(c)
  {
    if Superclass(c).Some? {
      var s := Superclass(c).value;
      SubclassIsAncestor(s, d);
      assert Ancestors(c) == {c} + Ancestors(s);
    }
  }

  /** A fault that reaches the error boundary. Each variant stands for every runtime
      class whose nearest class in `Class` is the one named in its comment, so the
      variants together cover every throwable (for instance `java.net.BindException`
      is a `Socket`, `java.io.FileNotFoundException` an `IO`). `message` is
      `Throwable.message`, `None` when it is null. */
  datatype Fault =
    | UnsupportedLanguage(lang: Lang)                   // UnsupportedLanguageException
    | ContentLengthLimit                                // ContentLengthLimitException
    | Connect(message: Option<string>)                  // ConnectException
    | UnknownHost(message: Option<string>)              // UnknownHostException
    | Socket(message: Option<string>)                   // SocketException
    | SocketTimeout(message: Option<string>)            // SocketTimeoutException
    | InterruptedIO(message: Option<string>)            // InterruptedIOException
    | Ssl(message: Option<string>)                      // SSLException
    | HttpStatus(statusCode: int, message: Option<string>) // HttpRequests.HttpStatusException
    | IO(message: Option<string>)                       // IOException
    | TranslateError(translatorId: string, translatorName: string,
                     errorInfo: ErrorInfo, cause: Fault)     // TranslateException
    | Other(message: Option<string>)                    // any other Throwable

  /** The nearest named class of a fault's runtime class. */
  function ClassOf(f: Fault): Class {
    match f
    case UnsupportedLanguage(_) => UnsupportedLanguageException
    case ContentLengthLimit => ContentLengthLimitException
    case Connect(_) => ConnectException
    case UnknownHost(_) => UnknownHostException
    case Socket(_) => SocketException
    case SocketTimeout(_) => SocketTimeoutException
    case InterruptedIO(_) => InterruptedIOException
    case Ssl(_) => SSLException
    case HttpStatus(_, _) => HttpStatusException
    case IO(_) => IOException
    case TranslateError(_, _, _, _) => TranslateException
    case Other(_) => Throwable
  }

  /** Kotlin's `f is c`: `c` is the fault's class or one of its ancestors. */
  predicate IsInstance(f: Fault, c: Class) {
    c in Ancestors(ClassOf(f))
  }

  /** The fault variants that carry `Throwable.message` in this model. */
  predicate HasMessage(f: Fault) {
    !(f.UnsupportedLanguage? || f.ContentLengthLimit? || f.TranslateError?)
  }

  /** `is` agrees with the superclass chain: a fault is an instance of exactly the
      classes its own class inherits from. */
  lemma InstanceIsSubclass(f: Fault, d: Class)
    ensures IsInstance(f, d) <==> IsSubclass(ClassOf(f), d)
  {
    SubclassIsAncestor(ClassOf(f), d);
  }

  /** What `is` answers for each of the classes the classifier tests, per variant:
      the subtype facts that the order of its branches depends on. */
  lemma InstanceFacts(f: Fault)
    ensures IsInstance(f, UnsupportedLanguageException) <==> f.UnsupportedLanguage?
    ensures IsInstance(f, ContentLengthLimitException) <==> f.ContentLengthLimit?
    ensures IsInstance(f, ConnectException) <==> f.Connect?
    ensures IsInstance(f, UnknownHostException) <==> f.UnknownHost?
    ensures IsInstance(f, SocketException) <==> f.Socket? || f.Connect?
    ensures IsInstance(f, SSLException) <==> f.Ssl?
    ensures IsInstance(f, SocketTimeoutException) <==> f.SocketTimeout?
    ensures IsInstance(f, HttpStatusException) <==> f.HttpStatus?
    ensures IsInstance(f, IOException) <==>
              f.Connect? || f.UnknownHost? || f.Socket? || f.SocketTimeout? ||
              f.InterruptedIO? || f.Ssl? || f.HttpStatus? || f.IO?
    ensures IsInstance(f, IOException) ==> HasMessage(f)
  {
  }

  /** A `ConnectException` is also a `SocketException`, and so an `IOException`. */
  lemma ConnectIsSocket(f: Fault)
    requires f.Connect?
    ensures IsInstance(f, ConnectException) && IsInstance(f, SocketException) && IsInstance(f, IOException)
  {
    InstanceFacts(f);
  }

  /** A `SocketTimeoutException` is not a `SocketException` (it descends from
      `InterruptedIOException`), though it is an `IOException`. */
  lemma SocketTimeoutIsNotSocket(f: Fault)
    requires f.SocketTimeout?
    ensures !IsInstance(f, SocketException) && IsInstance(f, IOException)
  {
    InstanceFacts(f);
  }

  /** Unknown hosts, TLS failures and HTTP status failures are all `IOException`s. */
  lemma NamedIOExceptions(f: Fault)
    requires f.UnknownHost? || f.Ssl? || f.HttpStatus?
    ensures IsInstance(f, IOException)
  {
    InstanceFacts(f);
  }
}
