/** The yearly selection of tickers to process: the NASDAQ and NYSE symbol
    directories are parsed into listings, compared with the tickers the data
    provider supports, and up to 50 of the common ones are picked in a random
    order. Fetching the files and the random order are inputs here. */
module ScheduledProcessing {
  import opened Text

  /** A listing kept from a symbol directory. */
  datatype Listing = Listing(symbol: string, name: string)

  /** A directory row after the checks: dropped, or kept as a listing. */
  datatype Row = Dropped | Kept(listing: Listing)

  // ---------------------------------------------------------------------
  // Directory files

  /** The data rows of a directory file: the text is split into lines, each
      line is trimmed, and the header and the footer lines are dropped. */
  function DirectoryRows(text: string): (rows: seq<string>)
    ensures var lines := Split(text, '\n');
            |rows| == (if |lines| >= 2 then |lines| - 2 else 0) &&
            forall i :: 0 <= i < |rows| ==> rows[i] == Trim(lines[i + 1])
  {
    var lines := Split(text, '\n');
    var trimmed := seq(|lines|, i requires 0 <= i < |lines| => Trim(lines[i]));
    if |trimmed| >= 2 then trimmed[1..|trimmed| - 1] else []
  }

  /** Field `i` of a split row is present and non-empty, so truthy. */
  predicate Filled(fields: seq<string>, i: nat) {
    i < |fields| && fields[i] != ""
  }

  /** A row of nasdaqlisted.txt: symbol, name, market category, test issue,
      financial status, round lot size, ETF, NextShares. It is kept when the
      fields it reads are filled and it is not a test issue, its financial
      status is normal, and it is neither an ETF nor a NextShares fund. */
  function NasdaqRow(line: string): Row {
    var f := Split(line, '|');
    if !(Filled(f, 0) && Filled(f, 1) && Filled(f, 2) && Filled(f, 3) && Filled(f, 4) && Filled(f, 6) && Filled(f, 7)) then Dropped
    else if f[3] != "N" || f[4] != "N" || f[6] != "N" || f[7] != "N" then Dropped
    else Kept(Listing(f[0], f[1]))
  }

  /** A NASDAQ row is kept exactly when symbol, name and category are filled
      and the four flags are all "N"; the round lot size is never read. */
  lemma NasdaqRowMeaning(line: string)
    ensures var f := Split(line, '|');
            NasdaqRow(line).Kept? <==>
              |f| >= 8 && f[0] != "" && f[1] != "" && f[2] != "" &&
              f[3] == "N" && f[4] == "N" && f[6] == "N" && f[7] == "N"
    ensures NasdaqRow(line).Kept? ==> NasdaqRow(line).listing == Listing(Split(line, '|')[0], Split(line, '|')[1])
  {
  }

  /** Replacing a NASDAQ row's round lot size does not change its fate. */
  lemma NasdaqIgnoresRoundLot(fields: seq<string>, roundLot: string)
    requires |fields| >= 8
    requires forall i :: 0 <= i < |fields| ==> '|' !in fields[i]
    requires '|' !in roundLot
    ensures NasdaqRow(Join(fields[5 := roundLot], '|')) == NasdaqRow(Join(fields, '|'))
  {
    SplitJoin(fields, '|');
    SplitJoin(fields[5 := roundLot], '|');
  }

  /** A row of otherlisted.txt: symbol, name, exchange, CQS symbol, ETF,
      round lot size, test issue. It is kept when those seven fields are
      filled and it is listed on the NYSE, is not a test issue and is not an
      ETF. */
  function NyseRow(line: string): Row {
    var f := Split(line, '|');
    if !(Filled(f, 0) && Filled(f, 1) && Filled(f, 2) && Filled(f, 3) && Filled(f, 4) && Filled(f, 5) && Filled(f, 6)) then Dropped
    else if f[2] != "N" || f[6] != "N" || f[4] != "N" then Dropped
    else Kept(Listing(f[0], f[1]))
  }

  /** An NYSE row is kept exactly when it has seven fields, the symbol, name,
      CQS symbol and round lot size are filled, and exchange, ETF and test
      issue are all "N". */
  lemma NyseRowMeaning(line: string)
    ensures var f := Split(line, '|');
            NyseRow(line).Kept? <==>
              |f| >= 7 && f[0] != "" && f[1] != "" && f[3] != "" && f[5] != "" &&
              f[2] == "N" && f[4] == "N" && f[6] == "N"
    ensures NyseRow(line).Kept? ==> NyseRow(line).listing == Listing(Split(line, '|')[0], Split(line, '|')[1])
  {
  }

  /** The listings of the kept rows, in the rows' order (`map` then
      `filter(Boolean)`). */
  function KeptListings(rows: seq<string>, parse: string -> Row): (r: seq<Listing>)
    ensures |r| <= |rows|
  {
    if rows == [] then []
    else
      var rest := KeptListings(rows[1..], parse);
      match parse(rows[0])
      case Kept(listing) => [listing] + rest
      case Dropped => rest
  }

  /** A listing is collected exactly when some row is kept as it. */
  lemma {:induction false} KeptListingsMeaning(rows: seq<string>, parse: string -> Row, listing: Listing)
    ensures listing in KeptListings(rows, parse) <==> exists i :: 0 <= i < |rows| && parse(rows[i]) == Kept(listing)
  {
    if rows != [] {
      KeptListingsMeaning(rows[1..], parse, listing);
      if listing in KeptListings(rows[1..], parse) {
        var i :| 0 <= i < |rows[1..]| && parse(rows[1..][i]) == Kept(listing);
        assert parse(rows[i + 1]) == Kept(listing);
      }
      if exists i :: 0 <= i < |rows| && parse(rows[i]) == Kept(listing) {
        var i :| 0 <= i < |rows| && parse(rows[i]) == Kept(listing);
        if i > 0 {
          assert parse(rows[1..][i - 1]) == Kept(listing);
        }
      }
    }
  }

  /** Reading one more row appends its listing if it is kept, so the order
      of the rows is the order of the listings. */
  lemma {:induction false} KeptListingsAppend(rows: seq<string>, row: string, parse: string -> Row)
    ensures KeptListings(rows + [row], parse) ==
              KeptListings(rows, parse) + (if parse(row).Kept? then [parse(row).listing] else [])
  {
    if rows == [] {
      assert [row][1..] == [];
    } else {
      assert (rows + [row])[1..] == rows[1..] + [row];
      KeptListingsAppend(rows[1..], row, parse);
    }
  }

  /** getNasdaqTickers after the fetch. */
  function NasdaqTickers(text: string): seq<Listing> {
    KeptListings(DirectoryRows(text), NasdaqRow)
  }

  /** getNyseTickers after the fetch. */
  function NyseTickers(text: string): seq<Listing> {
    KeptListings(DirectoryRows(text), NyseRow)
  }

  // ---------------------------------------------------------------------
  // The selection

  /** A member of a JavaScript `Set` here: a ticker string from the provider,
      or a listing object from a directory. */
  datatype SetMember = TickerString(ticker: string) | ListingObject(listing: Listing)

  /** `supportedTickers.intersection(allTickers)` as written: the provider's
      ticker strings against the directories' listing objects. */
  function TickersToProcess(providerTickers: seq<string>, nasdaq: seq<Listing>, nyse: seq<Listing>): set<SetMember> {
    var allTickers := set l | l in nasdaq + nyse :: ListingObject(l);
    var supportedTickers := set t | t in providerTickers :: TickerString(t);
    supportedTickers * allTickers
  }

  /** A string never equals an object, so the intersection is always empty. */
  lemma TickersToProcessEmpty(providerTickers: seq<string>, nasdaq: seq<Listing>, nyse: seq<Listing>)
    ensures TickersToProcess(providerTickers, nasdaq, nyse) == {}
  {
    var r := TickersToProcess(providerTickers, nasdaq, nyse);
    forall m | m in r
      ensures false
    {
    }
  }

  /** The intersection on ticker symbols: the provider's tickers that some
      directory lists. */
  function SymbolsToProcess(providerTickers: seq<string>, nasdaq: seq<Listing>, nyse: seq<Listing>): (r: set<string>)
    ensures forall t :: t in r <==> t in providerTickers && exists l :: l in nasdaq + nyse && l.symbol == t
  {
    var listed := set l | l in nasdaq + nyse :: l.symbol;
    (set t | t in providerTickers) * listed
  }

  const BatchSize: nat := 50

  /** `Array.from(tickersToProcess).sort(random).slice(0, 50)`, the random
      order being given as `shuffled`, an arrangement of the set: each member
      once, nothing else. */
  function SelectTickers<T(!new)>(tickersToProcess: set<T>, shuffled: seq<T>): (r: seq<T>)
    requires forall x :: x in shuffled <==> x in tickersToProcess
    requires |shuffled| == |tickersToProcess|
    ensures |r| <= BatchSize
    ensures |r| == if |tickersToProcess| <= BatchSize then |tickersToProcess| else BatchSize
    ensures forall x :: x in r ==> x in tickersToProcess
    ensures |tickersToProcess| <= BatchSize ==> r == shuffled
  {
    if |shuffled| <= BatchSize then shuffled else shuffled[..BatchSize]
  }

  /** As written, no ticker is ever selected, whatever the order. */
  lemma NothingSelected(providerTickers: seq<string>, nasdaq: seq<Listing>, nyse: seq<Listing>, shuffled: seq<SetMember>)
    requires forall x :: x in shuffled <==> x in TickersToProcess(providerTickers, nasdaq, nyse)
    requires |shuffled| == |TickersToProcess(providerTickers, nasdaq, nyse)|
    ensures forall m :: m !in SelectTickers(TickersToProcess(providerTickers, nasdaq, nyse), shuffled)
  {
    TickersToProcessEmpty(providerTickers, nasdaq, nyse);
  }

  /** Compared on symbols, every listed ticker the provider supports can be
      selected: each selected ticker is one, and when there are at most 50
      the selection is all of them. */
  lemma SymbolSelection(providerTickers: seq<string>, nasdaq: seq<Listing>, nyse: seq<Listing>, shuffled: seq<string>)
    requires forall x :: x in shuffled <==> x in SymbolsToProcess(providerTickers, nasdaq, nyse)
    requires |shuffled| == |SymbolsToProcess(providerTickers, nasdaq, nyse)|
    ensures var r := SelectTickers(SymbolsToProcess(providerTickers, nasdaq, nyse), shuffled);
            |r| <= BatchSize &&
            (forall t :: t in r ==> t in providerTickers && exists l :: l in nasdaq + nyse && l.symbol == t) &&
            (|SymbolsToProcess(providerTickers, nasdaq, nyse)| <= BatchSize ==>
               forall t :: t in providerTickers && (exists l :: l in nasdaq + nyse && l.symbol == t) ==> t in r)
  {
  }
}
