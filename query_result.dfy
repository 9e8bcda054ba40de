/** `QueryResult`: one page of search results with the search envelope's metadata. */
module Search {
  import opened Wrappers
  import opened ValueTypes

  class QueryResult {
    var sinceId: int
    var maxId: int
    var refreshUrl: Option<string>
    var resultsPerPage: int
    var warning: Option<string>
    var completedIn: real
    var page: int
    var query: Option<string>
    var tweets: Option<seq<Tweet>>

    /** `new QueryResult()`: zeros and nulls. */
    constructor ()
      ensures sinceId == 0 && maxId == 0 && refreshUrl == None && resultsPerPage == 0
      ensures warning == None && completedIn == 0.0 && page == 0 && query == None
      ensures tweets == None
    {
      sinceId := 0;
      maxId := 0;
      refreshUrl := None;
      resultsPerPage := 0;
      warning := None;
      completedIn := 0.0;
      page := 0;
      query := None;
      tweets := None;
    }

    /** `new QueryResult(Query)`, the empty page a search that found nothing returns:
        the query's since id, page size and page, no tweets, and a null query text. */
    constructor FromQuery(q: Query)
      ensures sinceId == q.sinceId && resultsPerPage == q.rpp && page == q.page
      ensures tweets == Some([])
      ensures query == None && refreshUrl == None && warning == None
      ensures maxId == 0 && completedIn == 0.0
    {
      sinceId := q.sinceId;
      maxId := 0;
      refreshUrl := None;
      resultsPerPage := q.rpp;
      warning := None;
      completedIn := 0.0;
      page := q.page;
      query := None;
      tweets := Some([]);
    }

    method SetSinceId(sinceId: int)
      modifies this`sinceId
      ensures this.sinceId == sinceId
    {
      this.sinceId := sinceId;
    }

    method SetMaxId(maxId: int)
      modifies this`maxId
      ensures this.maxId == maxId
    {
      this.maxId := maxId;
    }

    method SetRefreshUrl(refreshUrl: Option<string>)
      modifies this`refreshUrl
      ensures this.refreshUrl == refreshUrl
    {
      this.refreshUrl := refreshUrl;
    }

    method SetResultsPerPage(resultsPerPage: int)
      modifies this`resultsPerPage
      ensures this.resultsPerPage == resultsPerPage
    {
      this.resultsPerPage := resultsPerPage;
    }

    method SetWarning(warning: Option<string>)
      modifies this`warning
      ensures this.warning == warning
    {
      this.warning := warning;
    }

    method SetCompletedIn(completedIn: real)
      modifies this`completedIn
      ensures this.completedIn == completedIn
    {
      this.completedIn := completedIn;
    }

    method SetPage(page: int)
      modifies this`page
      ensures this.page == page
    {
      this.page := page;
    }

    method SetQuery(query: Option<string>)
      modifies this`query
      ensures this.query == query
    {
      this.query := query;
    }

    method SetTweets(tweets: Option<seq<Tweet>>)
      modifies this`tweets
      ensures this.tweets == tweets
    {
      this.tweets := tweets;
    }

    /** The inputs on which `equals` returns instead of throwing: once the five numeric
        fields agree it dereferences this object's query text. */
    predicate EqualsDefined(o: object?)
      reads this, o
    {
      if this == o || !(o is QueryResult) then true
      else !SameNumbers(o as QueryResult) || query.Some?
    }

    predicate SameNumbers(that: QueryResult)
      reads this, that
    {
      && completedIn == that.completedIn
      && maxId == that.maxId
      && page == that.page
      && resultsPerPage == that.resultsPerPage
      && sinceId == that.sinceId
    }

    /** `equals`: the five numbers, the query text, then refresh URL, tweets and warning
        null-safely; every field takes part. */
    predicate Equals(o: object?)
      reads this, o
      requires EqualsDefined(o)
      ensures Equals(o) <==> o is QueryResult && SamePage(o as QueryResult)
    {
      if this == o then true
      else if o == null || !(o is QueryResult) then false
      else SamePage(o as QueryResult)
    }

    predicate SamePage(that: QueryResult)
      reads this, that
    {
      && SameNumbers(that)
      && query == that.query
      && refreshUrl == that.refreshUrl
      && tweets == that.tweets
      && warning == that.warning
    }
  }

  /** Two distinct empty pages made from the same query cannot be compared: their query
      text is null, and `equals` dereferences it. */
  lemma EmptyPagesNotComparable(a: QueryResult, b: QueryResult, q: Query)
    requires a != b
    requires a.sinceId == q.sinceId && a.resultsPerPage == q.rpp && a.page == q.page
    requires b.sinceId == q.sinceId && b.resultsPerPage == q.rpp && b.page == q.page
    requires a.maxId == b.maxId == 0 && a.completedIn == b.completedIn == 0.0
    requires a.query == None
    ensures !a.EqualsDefined(b)
  {
  }
}
