/**
 * Remote listings as the collectors see them. A GitHub GraphQL connection is a page of nodes with
 * `pageInfo { endCursor hasNextPage }`; an ECR listing is a page of items with an optional
 * `NextToken`. Every remote call is answered from a supplied sequence of responses, one per call in
 * the order the calls are made; a call made after the sequence is used up fails with `NoResponse`.
 */
module Paging {
  import opened Wrappers

  datatype PageInfo = PageInfo(endCursor: string, hasNextPage: bool)

  /** One page of a GraphQL connection. */
  datatype Connection<T> = Connection(nodes: seq<T>, pageInfo: PageInfo)

  /** One page of an ECR listing; a missing `NextToken` marks the last page. */
  datatype TokenPage<T> = TokenPage(items: seq<T>, nextToken: Option<string>)

  /**
   * How a collector run ends: normally, with the error it returns, or with the process stopping
   * (`log.Fatal`, an index out of range).
   */
  datatype Outcome = Completed | Failed(error: string) | Aborted(reason: string)

  /** The error of a call for which no response was supplied. */
  const NoResponse := "no response"

  /** The answer to call number `i`. */
  function At<T>(responses: seq<Result<T>>, i: nat): (r: Result<T>)
    ensures i < |responses| ==> r == responses[i]
    ensures i >= |responses| ==> r == Failure(NoResponse)
  {
    if i < |responses| then responses[i] else Failure(NoResponse)
  }

  /**
   * The cursors a cursor walk sends from call `i` on, `cursor` being the one of call `i`: each later
   * call carries the previous page's `endCursor`, and the walk stops after a failed call or after a
   * page whose `hasNextPage` is false.
   */
  function CursorWalk<T>(responses: seq<Result<Connection<T>>>, i: nat, cursor: Option<string>): (cs: seq<Option<string>>)
    ensures 1 <= |cs| && cs[0] == cursor
    decreases |responses| - i
  {
    match At(responses, i)
    case Failure(_) => [cursor]
    case Success(page) =>
      if !page.pageInfo.hasNextPage then [cursor]
      else [cursor] + CursorWalk(responses, i + 1, Some(page.pageInfo.endCursor))
  }

  /** A walk continues past call `j` exactly when call `j` succeeded with `hasNextPage` set. */
  predicate Continues<T>(r: Result<Connection<T>>)
  {
    r.Success? && r.value.pageInfo.hasNextPage
  }

  /**
   * The walk from call `i` makes `|cs|` calls: every call but the last continues, the last does not,
   * and call `i + j` for `j > 0` carries the end cursor of call `i + j - 1`.
   */
  lemma {:induction false} CursorWalkShape<T>(responses: seq<Result<Connection<T>>>, i: nat, cursor: Option<string>)
    requires i <= |responses|
    ensures i + |CursorWalk(responses, i, cursor)| <= |responses| + 1
    ensures forall k | i <= k < i + |CursorWalk(responses, i, cursor)| - 1 :: Continues(responses[k])
    ensures !Continues(At(responses, i + |CursorWalk(responses, i, cursor)| - 1))
    ensures forall j | 0 < j < |CursorWalk(responses, i, cursor)| ::
      Continues(responses[i + j - 1])
      && CursorWalk(responses, i, cursor)[j] == Some(responses[i + j - 1].value.pageInfo.endCursor)
    decreases |responses| - i
  {
    var r := At(responses, i);
    if r.Success? && r.value.pageInfo.hasNextPage {
      var c := Some(r.value.pageInfo.endCursor);
      var next := CursorWalk(responses, i + 1, c);
      CursorWalkShape(responses, i + 1, c);
      var cs := CursorWalk(responses, i, cursor);
      assert cs == [cursor] + next;
      forall j | 0 < j < |cs|
        ensures Continues(responses[i + j - 1]) && cs[j] == Some(responses[i + j - 1].value.pageInfo.endCursor)
      {
        assert cs[j] == next[j - 1];
        if j > 1 {
          var j' := j - 1;
          assert Continues(responses[i + 1 + j' - 1]) && next[j'] == Some(responses[i + 1 + j' - 1].value.pageInfo.endCursor);
        }
      }
    }
  }

  /** A walk's cursors collected so far, followed by the rest of the walk, at the first call. */
  lemma CursorWalkStart<T>(responses: seq<Result<Connection<T>>>)
    ensures [] + CursorWalk(responses, 0, None) == CursorWalk(responses, 0, None)
  {
  }

  /** Sending the cursor of call `i` and continuing past it keeps the collected-plus-remaining walk. */
  lemma CursorWalkStep<T>(responses: seq<Result<Connection<T>>>, i: nat, cursor: Option<string>, sent: seq<Option<string>>)
    requires Continues(At(responses, i))
    ensures (sent + [cursor]) + CursorWalk(responses, i + 1, Some(At(responses, i).value.pageInfo.endCursor))
      == sent + CursorWalk(responses, i, cursor)
  {
  }

  /** A call that does not continue is the last of the walk. */
  lemma CursorWalkLast<T>(responses: seq<Result<Connection<T>>>, i: nat, cursor: Option<string>, sent: seq<Option<string>>)
    requires !Continues(At(responses, i))
    ensures sent + CursorWalk(responses, i, cursor) == sent + [cursor]
  {
  }

  /**
   * The GitHub walks issue their first query with a nil cursor and then one query per further page:
   * when every response succeeds and only the last one says there is no next page, `k` pages take
   * exactly `k` queries.
   */
  lemma CursorWalkCount<T>(responses: seq<Result<Connection<T>>>)
    requires |responses| > 0
    requires forall j | 0 <= j < |responses| - 1 :: Continues(responses[j])
    requires responses[|responses| - 1].Success? && !responses[|responses| - 1].value.pageInfo.hasNextPage
    ensures |CursorWalk(responses, 0, None)| == |responses|
    ensures CursorWalk(responses, 0, None)[0] == None
  {
    var cs := CursorWalk(responses, 0, None);
    CursorWalkShape(responses, 0, None);
  }

  /**
   * The tokens a NextToken walk sends from call `i` on, `token` being the one of call `i`: each
   * later call carries the previous page's `NextToken`, and the walk stops after a failed call or a
   * page without a token.
   */
  function TokenWalk<T>(responses: seq<Result<TokenPage<T>>>, i: nat, token: Option<string>): (ts: seq<Option<string>>)
    ensures 1 <= |ts| && ts[0] == token
    decreases |responses| - i
  {
    match At(responses, i)
    case Failure(_) => [token]
    case Success(page) =>
      if page.nextToken.None? then [token]
      else [token] + TokenWalk(responses, i + 1, page.nextToken)
  }

  predicate HasNextToken<T>(r: Result<TokenPage<T>>)
  {
    r.Success? && r.value.nextToken.Some?
  }

  /** The walk from call `i` makes `|ts|` calls, each after the first carrying the previous page's token. */
  lemma {:induction false} TokenWalkShape<T>(responses: seq<Result<TokenPage<T>>>, i: nat, token: Option<string>)
    requires i <= |responses|
    ensures i + |TokenWalk(responses, i, token)| <= |responses| + 1
    ensures forall k | i <= k < i + |TokenWalk(responses, i, token)| - 1 :: HasNextToken(responses[k])
    ensures !HasNextToken(At(responses, i + |TokenWalk(responses, i, token)| - 1))
    ensures forall j | 0 < j < |TokenWalk(responses, i, token)| ::
      HasNextToken(responses[i + j - 1]) && TokenWalk(responses, i, token)[j] == responses[i + j - 1].value.nextToken
    decreases |responses| - i
  {
    var r := At(responses, i);
    if r.Success? && r.value.nextToken.Some? {
      var next := TokenWalk(responses, i + 1, r.value.nextToken);
      TokenWalkShape(responses, i + 1, r.value.nextToken);
      var ts := TokenWalk(responses, i, token);
      assert ts == [token] + next;
      forall j | 0 < j < |ts|
        ensures HasNextToken(responses[i + j - 1]) && ts[j] == responses[i + j - 1].value.nextToken
      {
        assert ts[j] == next[j - 1];
        if j > 1 {
          var j' := j - 1;
          assert HasNextToken(responses[i + 1 + j' - 1]) && next[j'] == responses[i + 1 + j' - 1].value.nextToken;
        }
      }
    }
  }

  /** The outcome of a NextToken listing: every page's items in order, or the first error. */
  function Listing<T>(responses: seq<Result<TokenPage<T>>>, i: nat): (r: Result<seq<T>>)
    decreases |responses| - i
  {
    match At(responses, i)
    case Failure(e) => Failure(e)
    case Success(page) =>
      if page.nextToken.None? then Success(page.items)
      else match Listing(responses, i + 1)
        case Failure(e) => Failure(e)
        case Success(rest) => Success(page.items + rest)
  }

  /** The items of the `n` pages from call `i` on, in order (a failed call contributes none). */
  function ItemsFrom<T>(responses: seq<Result<TokenPage<T>>>, i: nat, n: nat): seq<T>
    decreases n
  {
    if n == 0 then []
    else (match At(responses, i) case Success(page) => page.items case Failure(_) => []) + ItemsFrom(responses, i + 1, n - 1)
  }

  /**
   * A listing succeeds exactly when every call of its walk succeeds, and then it is the
   * concatenation of the pages in order; otherwise it is the error of the walk's last call.
   */
  lemma {:induction false} ListingSpec<T>(responses: seq<Result<TokenPage<T>>>, i: nat)
    requires i <= |responses|
    ensures var ts := TokenWalk(responses, i, None); var last := At(responses, i + |ts| - 1);
      (Listing(responses, i).Success? <==> last.Success?)
      && (last.Failure? ==> Listing(responses, i) == Failure(last.error))
      && (last.Success? ==> Listing(responses, i) == Success(ItemsFrom(responses, i, |ts|)))
    decreases |responses| - i
  {
    TokenWalkShape(responses, i, None);
    var r := At(responses, i);
    if r.Success? && r.value.nextToken.Some? {
      ListingSpec(responses, i + 1);
      TokenWalkShape(responses, i + 1, None);
      TokenWalkShape(responses, i + 1, r.value.nextToken);
      TokenWalkLength(responses, i + 1, None, r.value.nextToken);
      var n := |TokenWalk(responses, i + 1, None)|;
      assert |TokenWalk(responses, i, None)| == n + 1;
      assert ItemsFrom(responses, i, n + 1) == r.value.items + ItemsFrom(responses, i + 1, n);
    } else if r.Success? {
      assert TokenWalk(responses, i, None) == [None];
      assert ItemsFrom(responses, i, 1) == r.value.items + ItemsFrom(responses, i + 1, 0);
      assert ItemsFrom(responses, i + 1, 0) == [];
      assert ItemsFrom(responses, i, 1) == r.value.items;
    }
  }

  /** The number of calls of a walk does not depend on the first token. */
  lemma {:induction false} TokenWalkLength<T>(responses: seq<Result<TokenPage<T>>>, i: nat, t1: Option<string>, t2: Option<string>)
    ensures |TokenWalk(responses, i, t1)| == |TokenWalk(responses, i, t2)|
    decreases |responses| - i
  {
    var r := At(responses, i);
    if r.Success? && r.value.nextToken.Some? {
      TokenWalkLength(responses, i + 1, r.value.nextToken, r.value.nextToken);
    }
  }
}
