/**
 * A search request (starter/search.py, class Query): the query options given as keyword
 * arguments, and the selectors the searcher reads them from.
 */
module Queries {
  import opened Wrappers
  import opened Models

  /**
   * The keyword arguments of a query. `None` stands for an absent key; a key given the
   * value `None` reads the same.
   */
  datatype QueryArgs = QueryArgs(
    returnObject: Option<string>,
    date: Option<Date>,
    startDate: Option<Date>,
    endDate: Option<Date>,
    number: Option<int>,
    filter: Option<seq<string>>)

  /** The structured query the searcher consumes. */
  datatype Selectors = Selectors(
    dateSearch: Option<Date>,
    number: Option<int>,
    filters: Option<seq<string>>,
    returnObject: Option<string>,
    startDate: Option<Date>,
    endDate: Option<Date>)

  class Query {
    var returnObject: Option<string>
    var date: Option<Date>
    var startDate: Option<Date>
    var endDate: Option<Date>
    var number: Option<int>
    var filters: Option<seq<string>>

    /** Every option starts unset and takes the keyword argument of its name when there is one. */
    constructor (kwargs: QueryArgs)
      ensures returnObject == kwargs.returnObject && date == kwargs.date
      ensures startDate == kwargs.startDate && endDate == kwargs.endDate
      ensures number == kwargs.number && filters == kwargs.filter
    {
      returnObject := None;
      date := None;
      startDate := None;
      endDate := None;
      number := None;
      filters := None;
      if kwargs.returnObject.Some? {
        returnObject := kwargs.returnObject;
      }
      if kwargs.date.Some? {
        date := kwargs.date;
      }
      if kwargs.startDate.Some? {
        startDate := kwargs.startDate;
      }
      if kwargs.endDate.Some? {
        endDate := kwargs.endDate;
      }
      if kwargs.number.Some? {
        number := kwargs.number;
      }
      if kwargs.filter.Some? {
        filters := kwargs.filter;
      }
    }

    /** The selectors of this query: each option copied as it is, the date as the date searched for. */
    function BuildQuery(): (s: Selectors)
      reads this
      ensures s.dateSearch == date && s.number == number && s.filters == filters
      ensures s.returnObject == returnObject && s.startDate == startDate && s.endDate == endDate
    {
      Selectors(date, number, filters, returnObject, startDate, endDate)
    }
  }
}
