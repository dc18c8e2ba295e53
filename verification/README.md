# AbstractTranslator: translate, classify, wrap

A Dafny model of the pipeline that every translator backend of the TranslationPlugin
shares (`AbstractTranslator`). A call to `translate` checks the content length, then
delegates once to the backend's `doTranslate`, all inside one error boundary. A fault
raised inside the boundary goes to `onError`. It asks `createErrorInfo` for a localisable
description. A described fault is thrown again wrapped in a `TranslateException` that
carries the translator's id and name, the description and the original fault as cause.
A fault with no description is rethrown unchanged. The model also covers the default
target language (`defaultLangForLocale`).

Modules, one per concept:

- `Wrappers`: nullable values, Kotlin's `takeIf` and the elvis operator.
- `Languages`: `Lang` and the fallback `English`.
- `Messages` / `StatusCodes`: descriptions are kept as message keys plus arguments.
  They are not resolved to strings. `StatusCodes` holds the status codes the classifier names.
  These are 400, 403 and 413 (sections 15.5.1, 15.5.4 and 15.5.14 of RFC 9110), 500 and 503
  (sections 15.6.1 and 15.6.4 of RFC 9110) and 429 (section 4 of RFC 6585).
- `Faults`: the exception classes the classifier tests, with their superclass chain. It also holds a
  closed `Fault` datatype with one variant per nearest named class, and `IsInstance`, Kotlin's `is`.
  `IsInstance` reads an explicit ancestor table. That table is proved to agree with the superclass chain.
- `ErrorClassification`: `createErrorInfo` as an ordered list of `when` branches (`WhenBranches`).
  A recursive first-match evaluator (`FirstMatch`) runs it. This dispatch is proved equal to an
  order-free table with one entry per kind of fault (`Table`).
- `AbstractTranslator`: `defaultLangForLocale`, `onError`, `checkError` and `translate`. The backend is
  the function parameter `doTranslate`. The result is `Success(t)` or `Failed(e)`. The failure `e` is
  `Wrapped(id, name, info, cause)` or `Raw(fault)`. `onError` returns a `Failure`, the model's
  counterpart of Kotlin's `Nothing`: it cannot return normally.

The order of the classifier's branches matters. A `ConnectException` is a `SocketException`, so
the branch at line 38 must come before the one at line 39. `SwappedOrderMisdescribesConnect`
proves that with the two swapped, a refused connection would be described as a generic network
error.

## Model

| member | source | states |
|---|---|---|
| Faults.SubclassIsAncestor | src/main/kotlin/cn/yiiguxing/plugin/translate/trans/AbstractTranslator.kt:6-11 | the superclass chain of the imported exception classes and an explicit ancestor table agree on every pair of classes |
| Faults.InstanceIsSubclass | src/main/kotlin/cn/yiiguxing/plugin/translate/trans/AbstractTranslator.kt:36-53 | a fault passes an `is C` test exactly when its class is C or inherits from C along the superclass chain |
| Faults.InstanceFacts | src/main/kotlin/cn/yiiguxing/plugin/translate/trans/AbstractTranslator.kt:37-52 | for every kind of fault, exactly which of the classes tested by the `when` it is an instance of; every IOException carries a message |
| Faults.ConnectIsSocket | src/main/kotlin/cn/yiiguxing/plugin/translate/trans/AbstractTranslator.kt:38-39 | a ConnectException is also a SocketException and an IOException, so the branches at lines 38 and 39 overlap |
| Faults.SocketTimeoutIsNotSocket | src/main/kotlin/cn/yiiguxing/plugin/translate/trans/AbstractTranslator.kt:39-40 | a SocketTimeoutException is an IOException but not a SocketException |
| Faults.NamedIOExceptions | src/main/kotlin/cn/yiiguxing/plugin/translate/trans/AbstractTranslator.kt:38-52 | UnknownHostException, SSLException and HttpStatusException are IOExceptions, so they all meet the IOException branch only after their own |
| ErrorClassification.StatusCodeMessageIsTable | src/main/kotlin/cn/yiiguxing/plugin/translate/trans/AbstractTranslator.kt:42-50 | the nested `when` on the status code is a lookup: 429, 403, 400, 413, 503 and 500 get their own keys; any other code gets its reason phrase |
| ErrorClassification.FirstMatch | src/main/kotlin/cn/yiiguxing/plugin/translate/trans/AbstractTranslator.kt:36-54 | the ordered dispatch answers "no description" exactly when no branch catches the fault; otherwise its answer is the body of a branch that catches it |
| ErrorClassification.FirstMatchIsEarliest | src/main/kotlin/cn/yiiguxing/plugin/translate/trans/AbstractTranslator.kt:36-54 | first match wins: the earliest catching branch decides, and later branches that also catch are never used |
| ErrorClassification.WhenBranchesAreSound | src/main/kotlin/cn/yiiguxing/plugin/translate/trans/AbstractTranslator.kt:37-52 | every smart cast in the `when` is justified: a branch that reads `lang`, `statusCode` or `message` only catches faults that have it |
| ErrorClassification.EarliestCatchingBranch | src/main/kotlin/cn/yiiguxing/plugin/translate/trans/AbstractTranslator.kt:37-53 | for each kind of fault, the branch the table names catches it and no earlier branch does |
| ErrorClassification.TableEntryIsBranchBody | src/main/kotlin/cn/yiiguxing/plugin/translate/trans/AbstractTranslator.kt:37-52 | the order-free table's entry for a fault is what the body of the branch it names evaluates to |
| ErrorClassification.WhenBranchesMatchTable | src/main/kotlin/cn/yiiguxing/plugin/translate/trans/AbstractTranslator.kt:35-57 | the ordered `when` gives the same answer as the order-free table for every fault |
| ErrorClassification.CreateErrorInfo | src/main/kotlin/cn/yiiguxing/plugin/translate/trans/AbstractTranslator.kt:35-57 | createErrorInfo describes a fault exactly as the order-free table does, and returns null exactly where the table has no entry |
| ErrorClassification.ClassifiedExactly | src/main/kotlin/cn/yiiguxing/plugin/translate/trans/AbstractTranslator.kt:36-53 | a fault gets a description if and only if it is an IOException, an UnsupportedLanguageException or a ContentLengthLimitException |
| ErrorClassification.ConnectTakesPrecedence | src/main/kotlin/cn/yiiguxing/plugin/translate/trans/AbstractTranslator.kt:38-39 | a ConnectException, though a SocketException, is described as error.network.connection |
| ErrorClassification.SwappedOrderMisdescribesConnect | src/main/kotlin/cn/yiiguxing/plugin/translate/trans/AbstractTranslator.kt:38-39 | with the branches at lines 38 and 39 swapped, a ConnectException would be described as error.network, so the source order matters |
| ErrorClassification.TextTooLongEitherWay | src/main/kotlin/cn/yiiguxing/plugin/translate/trans/AbstractTranslator.kt:41-46 | a ContentLengthLimitException and HTTP 413 are both described as error.text.too.long |
| ErrorClassification.DescriptionsByKind | src/main/kotlin/cn/yiiguxing/plugin/translate/trans/AbstractTranslator.kt:37-53 | an unsupported language gets its langName as argument; a connect or unknown-host failure gets error.network.connection; a socket or TLS failure gets error.network; a timeout gets error.network.timeout; another IOException gets error.io.exception with its message, or "" when there is none; any other throwable gets no description |
| ErrorClassification.StatusDescriptions | src/main/kotlin/cn/yiiguxing/plugin/translate/trans/AbstractTranslator.kt:42-50 | HTTP 429, 403, 400, 413, 503 and 500 map to their keys; every other code maps to its reason phrase, verbatim |
| AbstractTranslator.DefaultLangForLocale | src/main/kotlin/cn/yiiguxing/plugin/translate/trans/AbstractTranslator.kt:18-20 | the default target is the process default language when the translator supports it as a target, otherwise English |
| AbstractTranslator.OnError | src/main/kotlin/cn/yiiguxing/plugin/translate/trans/AbstractTranslator.kt:59-62 | onError never returns normally; it wraps exactly the faults createErrorInfo describes, with the translator's id and name, that description and the fault as cause, and rethrows every other fault unchanged |
| AbstractTranslator.CheckError | src/main/kotlin/cn/yiiguxing/plugin/translate/trans/AbstractTranslator.kt:29-33 | checkError passes the action's value through untouched; a thrown fault is wrapped, with itself as cause, the translator's id and name and the table's description, exactly when the table describes it, and is rethrown unchanged otherwise |
| AbstractTranslator.Translate | src/main/kotlin/cn/yiiguxing/plugin/translate/trans/AbstractTranslator.kt:22-25 | translate succeeds exactly when the length check passes and the backend returns, and then gives what the backend returned. A failed check is wrapped as error.text.too.long whatever the backend. A backend fault is wrapped with its description or rethrown unchanged |
| AbstractTranslator.CheckPrecedesBackend | src/main/kotlin/cn/yiiguxing/plugin/translate/trans/AbstractTranslator.kt:22-25 | when the length check fails, the backend is not consulted: any two backends give the same outcome |
| AbstractTranslator.WrappedIsNeverDescribedAgain | src/main/kotlin/cn/yiiguxing/plugin/translate/trans/AbstractTranslator.kt:60-61 | the TranslateException thrown for a wrapped fault keeps the fault as cause and gets no description from createErrorInfo, so it is never wrapped again |
| AbstractTranslator.SecondBoundaryChangesNothing | src/main/kotlin/cn/yiiguxing/plugin/translate/trans/AbstractTranslator.kt:59-62 | passing what escapes an error boundary through a second one changes nothing observable: a TranslateException has no description, so it is rethrown, not wrapped again |
| AbstractTranslator.WrappedAtMostOnce | src/main/kotlin/cn/yiiguxing/plugin/translate/trans/AbstractTranslator.kt:59-62 | a fault is wrapped at most once: whatever escapes an inner translate escapes an outer translate that delegates to it unchanged |

## Left out

- The `by lazy` caching of `defaultLangForLocale` and its thread safety: the model computes it as a pure function. That also makes it idempotent. `Lang.default` is the parameter `processDefault`.
- `message(key, args)`: the localisation bundles are not part of the model, so a description is the key plus its arguments (`Localised`).
- `HttpResponseStatus.valueOf(code).reasonPhrase()`: this is Netty's table, so it is the parameter `reasonPhrase`. Netty rejects a negative code with an exception of its own. That exception would then escape `onError`. This is not modelled, because status codes come from HTTP responses.
- `checkContentLength`: its body is not part of this model. It is the predicate parameter `tooLong(text, limit)`, and the model raises a `ContentLengthLimitException` when it holds.
- Concrete `doTranslate` backends and their network I/O: the backend is the function parameter `doTranslate`, and it either returns a translation or throws a fault.
- The rest of the Java exception hierarchy: any other throwable is represented by its nearest class among those the classifier names (`Other` stands for every throwable outside them). `UnsupportedLanguageException`, `ContentLengthLimitException` and `TranslateException` are declared outside the modelled file. The model places them outside the IOException tree. Only the placement of `TranslateException` affects a result (`WrappedAtMostOnce`).
- Object identity: "rethrown unchanged" is stated as value equality of the fault.
- Overrides of the `open` `createErrorInfo` in subclasses: the model covers the base class's dispatch only.
