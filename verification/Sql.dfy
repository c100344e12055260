/** SQL's three-valued logic, for WHERE clauses over nullable columns. */
module Sql {
  import opened Wrappers

  datatype Truth = True | False | Unknown

  function Of(b: bool): Truth {
    if b then True else False
  }

  function And(a: Truth, b: Truth): Truth {
    if a == False || b == False then False else if a == Unknown || b == Unknown then Unknown else True
  }

  function Or(a: Truth, b: Truth): Truth {
    if a == True || b == True then True else if a == Unknown || b == Unknown then Unknown else False
  }

  function IsNull<T>(column: Option<T>): Truth {
    Of(column.None?)
  }

  /** column < x, where a NULL column compares as Unknown. */
  function Less(column: Option<int>, x: int): Truth {
    if column.None? then Unknown else Of(column.value < x)
  }
}
