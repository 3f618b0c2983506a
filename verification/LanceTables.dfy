/** The two Lance tables that user writes reach.  A table is a map; an update is one atomic
    step that either changes every matching row or fails and changes nothing. */
module LanceTables {
  import opened Wrappers
  import opened Sql

  datatype Row = Row(feed: string, read: bool, star: bool)

  /** Pending state of one article; `None` keeps the stored value. */
  datatype Override = Override(read: Option<bool>, star: Option<bool>)

  datatype Tables = Tables(articles: map<string, Row>, settings: map<string, string>)

  const NO_OVERRIDE := Override(None, None)
  const SET_READ := Override(Some(true), None)

  function Merged(r: Row, ov: Override): Row {
    Row(r.feed, ov.read.GetOr(r.read), ov.star.GetOr(r.star))
  }

  predicate Holds(c: Cond, id: string, r: Row) {
    match c
    case ColumnIn(column, values) => column == "article_id" && id in values
    case UnreadInFeed(feed) => r.feed == feed && !r.read
  }

  function UpdatedArticles(articles: map<string, Row>, c: Cond, ov: Override): map<string, Row> {
    map id | id in articles :: if Holds(c, id, articles[id]) then Merged(articles[id], ov) else articles[id]
  }

  function UpdatedSettings(settings: map<string, string>, c: Cond, value: string): map<string, string> {
    map k | k in settings ::
      if c.ColumnIn? && c.column == "key" && k in c.values then value else settings[k]
  }

  /** The connection to the Lance tables.  `fails(n)` says whether the n-th update fails. */
  class Lance {
    var articles: map<string, Row>
    var settings: map<string, string>
    var step: nat
    const fails: nat -> bool

    constructor (articles: map<string, Row>, settings: map<string, string>, fails: nat -> bool)
      ensures Contents() == Tables(articles, settings)
      ensures this.fails == fails
    {
      this.articles := articles;
      this.settings := settings;
      this.fails := fails;
      step := 0;
    }

    function Contents(): Tables
      reads this
    {
      Tables(articles, settings)
    }

    /** An update after the n-th has failed, and it was the latest. */
    ghost predicate FailedSince(n: nat)
      reads this
    {
      n < step && fails(step - 1)
    }

    /** Updates the articles that the filter text selects; a malformed filter is an error. */
    method UpdateArticles(filter: string, ov: Override) returns (ok: bool)
      modifies this
      ensures settings == old(settings) && step == old(step) + 1
      ensures ok == (!fails(old(step)) && ParseCond(filter).Some?)
      ensures articles == if ok then UpdatedArticles(old(articles), ParseCond(filter).value, ov) else old(articles)
    {
      ok := !fails(step) && ParseCond(filter).Some?;
      step := step + 1;
      if ok {
        articles := UpdatedArticles(articles, ParseCond(filter).value, ov);
      }
    }

    /** Updates the value of the settings that the filter text selects; keys without a row stay absent. */
    method UpdateSettings(filter: string, value: string) returns (ok: bool)
      modifies this
      ensures articles == old(articles) && step == old(step) + 1
      ensures ok == (!fails(old(step)) && ParseCond(filter).Some?)
      ensures settings == if ok then UpdatedSettings(old(settings), ParseCond(filter).value, value) else old(settings)
    {
      ok := !fails(step) && ParseCond(filter).Some?;
      step := step + 1;
      if ok {
        settings := UpdatedSettings(settings, ParseCond(filter).value, value);
      }
    }
  }
}
