/** The message selection of the default `NetConfig.onError` hook.

    `SelectMessage` is the source's `when` chain, clause by clause. Beside it
    stands an independent reading of the same chain as data: the ordered list
    of tested classes `ClauseOrder`, the category each clause yields
    (`ClauseMessage`), and the first-match search `FirstMatch`. The lemmas
    prove the chain equal to the rule list and derive from that what the
    ordering promises: totality, first match wins, later tags never matter. */
module Classifier {
  import opened Failures

  /** What the toast shows. Every category but two is a fixed string
      resource; the timeout category formats the failure's own message into
      its resource, and the `ResponseException` category is that message. */
  datatype Message =
    | HostError
    | UrlError
    | NetworkError
    | ConnectTimeoutError(detail: Option<string>)
    | DownloadError
    | ParseError
    | RequestError
    | ServerError
    | NullError
    | NoCacheError
    | ResponseMessage(text: Option<string>)
    | NetError
    | OtherError

  /** True when showing the message needs a string-resource lookup on `app`. */
  predicate NeedsResource(m: Message) {
    !m.ResponseMessage?
  }

  /** The message chosen for a thrown failure: the first `is` clause that
      matches, in written order, else the catch-all. */
  function SelectMessage(t: Throwable): (r: Message)
    ensures r.ConnectTimeoutError? ==> r.detail == t.message
    ensures r.ResponseMessage? ==> r.text == t.message
  {
    if UnknownHostException in t.tags then HostError
    else if URLParseException in t.tags then UrlError
    else if NetConnectException in t.tags then NetworkError
    else if NetSocketTimeoutException in t.tags then ConnectTimeoutError(t.message)
    else if DownloadFileException in t.tags then DownloadError
    else if ConvertException in t.tags then ParseError
    else if RequestParamsException in t.tags then RequestError
    else if ServerResponseException in t.tags then ServerError
    else if NullPointerException in t.tags then NullError
    else if NoCacheException in t.tags then NoCacheError
    else if ResponseException in t.tags then ResponseMessage(t.message)
    else if NetException in t.tags then NetError
    else OtherError
  }

  /** The classes the chain tests, in the order it tests them. */
  const ClauseOrder: seq<ExceptionClass> := [
    UnknownHostException, URLParseException, NetConnectException,
    NetSocketTimeoutException, DownloadFileException, ConvertException,
    RequestParamsException, ServerResponseException, NullPointerException,
    NoCacheException, ResponseException, NetException
  ]

  /** The category one clause yields for `t` (the catch-all for a class no
      clause tests). */
  function ClauseMessage(c: ExceptionClass, t: Throwable): Message {
    match c
    case UnknownHostException => HostError
    case URLParseException => UrlError
    case NetConnectException => NetworkError
    case NetSocketTimeoutException => ConnectTimeoutError(t.message)
    case DownloadFileException => DownloadError
    case ConvertException => ParseError
    case RequestParamsException => RequestError
    case ServerResponseException => ServerError
    case NullPointerException => NullError
    case NoCacheException => NoCacheError
    case ResponseException => ResponseMessage(t.message)
    case NetException => NetError
    case _ => OtherError
  }

  /** The position of the first class of `order` that is among `tags`. */
  function FirstMatch(order: seq<ExceptionClass>, tags: set<ExceptionClass>): (r: Option<nat>)
    ensures r.Some? ==> r.value < |order| && order[r.value] in tags
    ensures r.Some? ==> forall k :: 0 <= k < r.value ==> order[k] !in tags
    ensures r.None? <==> forall k :: 0 <= k < |order| ==> order[k] !in tags
  {
    if order == [] then None
    else if order[0] in tags then Some(0)
    else
      match FirstMatch(order[1..], tags)
      case None => None
      case Some(j) => Some(j + 1)
  }

  /** The rule list read as a first-match-wins table. */
  function ByRules(t: Throwable): Message {
    match FirstMatch(ClauseOrder, t.tags)
    case None => OtherError
    case Some(i) => ClauseMessage(ClauseOrder[i], t)
  }

  /** Whether clause `i` is the one that fires for `t`. */
  predicate Fires(i: nat, t: Throwable) {
    i < |ClauseOrder| && ClauseOrder[i] in t.tags &&
    forall k :: 0 <= k < i ==> ClauseOrder[k] !in t.tags
  }

  /** Distinct clauses yield distinct categories, none of them the catch-all. */
  lemma ClauseMessagesDistinct(i: nat, j: nat, t: Throwable)
    requires i < |ClauseOrder| && j < |ClauseOrder|
    ensures ClauseMessage(ClauseOrder[i], t) != OtherError
    ensures ClauseMessage(ClauseOrder[i], t) == ClauseMessage(ClauseOrder[j], t) ==> i == j
  {
  }

  /** The `when` chain is exactly the first-match reading of the rule list. */
  lemma {:induction false} SelectMessageFollowsRules(t: Throwable)
    ensures SelectMessage(t) == ByRules(t)
  {
    // The rule list, position by position.
    assert ClauseOrder[0] == UnknownHostException;
    assert ClauseOrder[1] == URLParseException;
    assert ClauseOrder[2] == NetConnectException;
    assert ClauseOrder[3] == NetSocketTimeoutException;
    assert ClauseOrder[4] == DownloadFileException;
    assert ClauseOrder[5] == ConvertException;
    assert ClauseOrder[6] == RequestParamsException;
    assert ClauseOrder[7] == ServerResponseException;
    assert ClauseOrder[8] == NullPointerException;
    assert ClauseOrder[9] == NoCacheException;
    assert ClauseOrder[10] == ResponseException;
    assert ClauseOrder[11] == NetException;
    match FirstMatch(ClauseOrder, t.tags)
    case None =>
    case Some(i) =>
      // Every clause before the firing one was tested and did not match.
      assert forall k :: 0 <= k < i ==> ClauseOrder[k] !in t.tags;
  }

  /** Totality: every failure gets a category, and it is the catch-all
      exactly when none of the tested classes is among its tags. */
  lemma OtherErrorIffNoClauseMatches(t: Throwable)
    ensures SelectMessage(t) == OtherError <==>
            forall k :: 0 <= k < |ClauseOrder| ==> ClauseOrder[k] !in t.tags
  {
    SelectMessageFollowsRules(t);
    match FirstMatch(ClauseOrder, t.tags)
    case None =>
    case Some(i) => ClauseMessagesDistinct(i, i, t);
  }

  /** First match wins: clause `i` decides the message exactly when its class
      is among the tags and no earlier clause's class is. */
  lemma ClauseChosenIffFires(t: Throwable, i: nat)
    requires i < |ClauseOrder|
    ensures SelectMessage(t) == ClauseMessage(ClauseOrder[i], t) <==> Fires(i, t)
  {
    SelectMessageFollowsRules(t);
    match FirstMatch(ClauseOrder, t.tags)
    case None =>
      ClauseMessagesDistinct(i, i, t);
    case Some(j) =>
      ClauseMessagesDistinct(j, i, t);
  }

  /** A failure that is an `UnknownHostException` gets the host message,
      whatever later classes it is also an instance of. */
  lemma HostErrorWins(t: Throwable)
    requires UnknownHostException in t.tags
    ensures SelectMessage(t) == HostError
  {
    ClauseChosenIffFires(t, 0);
  }

  /** The timeout clause, when it fires, carries the failure's own message,
      and the timeout category is produced by no other clause. */
  lemma TimeoutCarriesOwnMessage(t: Throwable)
    ensures SelectMessage(t).ConnectTimeoutError? <==> Fires(3, t)
    ensures SelectMessage(t).ConnectTimeoutError? ==> SelectMessage(t).detail == t.message
  {
    ClauseChosenIffFires(t, 3);
  }

  /** The `ResponseException` clause shows the failure's own message verbatim
      (possibly absent) and is the only clause that needs no resource lookup. */
  lemma ResponseMessageVerbatim(t: Throwable)
    ensures SelectMessage(t).ResponseMessage? <==> Fires(10, t)
    ensures SelectMessage(t).ResponseMessage? ==> SelectMessage(t).text == t.message
    ensures NeedsResource(SelectMessage(t)) <==> !Fires(10, t)
  {
    ClauseChosenIffFires(t, 10);
  }

  /** The generic `NetException` message applies only when no more specific
      clause before it matched. */
  lemma NetErrorOnlyAsFallback(t: Throwable)
    ensures SelectMessage(t) == NetError <==>
            NetException in t.tags && forall k :: 0 <= k < 11 ==> ClauseOrder[k] !in t.tags
  {
    ClauseChosenIffFires(t, 11);
  }

  /** Adding a class that is not tested before the firing clause (a later
      clause's class, or one no clause tests) never changes the message. */
  lemma LaterTagIrrelevant(t: Throwable, i: nat, c: ExceptionClass)
    requires Fires(i, t)
    requires forall k :: 0 <= k < i ==> ClauseOrder[k] != c
    ensures SelectMessage(Throwable(t.tags + {c}, t.message)) == SelectMessage(t)
  {
    var t' := Throwable(t.tags + {c}, t.message);
    assert Fires(i, t');
    ClauseChosenIffFires(t, i);
    ClauseChosenIffFires(t', i);
  }

  /** For every failure, adding a class that no clause tests never changes
      the message. */
  lemma UntestedTagIrrelevant(t: Throwable, c: ExceptionClass)
    requires forall k :: 0 <= k < |ClauseOrder| ==> ClauseOrder[k] != c
    ensures SelectMessage(Throwable(t.tags + {c}, t.message)) == SelectMessage(t)
  {
    var t' := Throwable(t.tags + {c}, t.message);
    match FirstMatch(ClauseOrder, t.tags)
    case None =>
      OtherErrorIffNoClauseMatches(t);
      OtherErrorIffNoClauseMatches(t');
    case Some(i) =>
      LaterTagIrrelevant(t, i, c);
  }
}
