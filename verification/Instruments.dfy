/** The instrument universe: data/universe.py. */
module Instruments {
  import opened Prelude

  datatype Instrument = Instrument(symbol: string, sector: Option<string>)

  const INSTRUMENTS: seq<Instrument> := [
    Instrument("NIFTY", None),
    Instrument("BANKNIFTY", None),
    Instrument("RELIANCE.NS", Some("Energy")),
    Instrument("TCS.NS", Some("Information Technology")),
    Instrument("HDFCBANK.NS", Some("Financials")),
    Instrument("INFY.NS", Some("Information Technology")),
    Instrument("ICICIBANK.NS", Some("Financials"))
  ]

  /** The instrument with a symbol; get_instrument raises where there is none. */
  function Lookup(table: seq<Instrument>, symbol: string): (r: Option<Instrument>)
    ensures r.Some? ==> r.value in table && r.value.symbol == symbol
    ensures r == None ==> forall i :: i in table ==> i.symbol != symbol
  {
    if table == [] then None
    else if table[0].symbol == symbol then Some(table[0])
    else Lookup(table[1..], symbol)
  }
}
