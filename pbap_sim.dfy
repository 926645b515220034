/**
 * The SIM phone book listings of the phone book access server: looking up
 * contact names by phone number (suffix matches first, then prefix matches
 * not already listed) and the name listing that keeps the owner card first.
 */
module PbapSim {
  import opened Wrappers
  import opened JavaText
  import opened PbapContacts

  /** A row of the SIM cursor: display name and number, each possibly null. */
  datatype SimRow = SimRow(name: Option<string>, number: Option<string>)

  /** The name listed for a row: an empty or null name becomes the default. */
  function SimName(row: SimRow, unknownName: string): string
  {
    DisplayNameOr(row.name, unknownName)
  }

  /** The row has a number whose digits end with `search`. */
  predicate SuffixMatch(row: SimRow, search: string) {
    row.number.Some? && EndsWith(Digits(row.number.value), search)
  }

  /** The row has a number whose digits start with `search`. */
  predicate PrefixMatch(row: SimRow, search: string) {
    row.number.Some? && StartsWith(Digits(row.number.value), search)
  }

  /** Names of the suffix-matching rows, in cursor order and with repeats. */
  function SuffixMatches(rows: seq<SimRow>, search: string, unknownName: string): (r: seq<string>)
    ensures |r| <= |rows|
    ensures forall x :: x in r <==>
      exists i :: 0 <= i < |rows| && SuffixMatch(rows[i], search) && SimName(rows[i], unknownName) == x
  {
    if rows == [] then []
    else
      var n := |rows| - 1;
      var prefix := SuffixMatches(rows[..n], search, unknownName);
      assert forall i :: 0 <= i < n ==> rows[..n][i] == rows[i];
      prefix + (if SuffixMatch(rows[n], search) then [SimName(rows[n], unknownName)] else [])
  }

  /** Names of the prefix-matching rows, in cursor order and with repeats. */
  function PrefixMatches(rows: seq<SimRow>, search: string, unknownName: string): (r: seq<string>)
    ensures |r| <= |rows|
    ensures forall x :: x in r <==>
      exists i :: 0 <= i < |rows| && PrefixMatch(rows[i], search) && SimName(rows[i], unknownName) == x
  {
    if rows == [] then []
    else
      var n := |rows| - 1;
      var prefix := PrefixMatches(rows[..n], search, unknownName);
      assert forall i :: 0 <= i < n ==> rows[..n][i] == rows[i];
      prefix + (if PrefixMatch(rows[n], search) then [SimName(rows[n], unknownName)] else [])
  }

  /**
   * `acc` followed by the elements of `xs` that are not yet in the list when
   * their turn comes: what `if (!list.contains(x)) list.add(x)` over `xs` builds.
   */
  function AppendAbsent(acc: seq<string>, xs: seq<string>): (r: seq<string>)
    ensures acc <= r
    ensures forall x :: x in r <==> x in acc || x in xs
    ensures forall i :: |acc| <= i < |r| ==> r[i] !in acc
    ensures forall i, j :: |acc| <= i < j < |r| ==> r[i] != r[j]
  {
    if xs == [] then acc
    else
      var n := |xs| - 1;
      var a := AppendAbsent(acc, xs[..n]);
      assert forall x :: x in xs <==> x in xs[..n] || x == xs[n] by {
        assert xs == xs[..n] + [xs[n]];
      }
      if xs[n] in a then a else a + [xs[n]]
  }

  lemma MatchesStep(rows: seq<SimRow>, i: nat, search: string, unknownName: string)
    requires i < |rows|
    ensures SuffixMatches(rows[..i + 1], search, unknownName)
      == SuffixMatches(rows[..i], search, unknownName)
         + (if SuffixMatch(rows[i], search) then [SimName(rows[i], unknownName)] else [])
    ensures PrefixMatches(rows[..i + 1], search, unknownName)
      == PrefixMatches(rows[..i], search, unknownName)
         + (if PrefixMatch(rows[i], search) then [SimName(rows[i], unknownName)] else [])
  {
    assert rows[..i + 1][..i] == rows[..i];
  }

  /** The digit-only form of a number, built character by character. */
  method OnlyDigits(s: string) returns (d: string)
    ensures d == Digits(s)
  {
    d := [];
    var j := 0;
    while j < |s|
      invariant 0 <= j <= |s|
      invariant d == Digits(s[..j])
    {
      assert s[..j + 1][..j] == s[..j];
      var c := s[j];
      if '0' <= c <= '9' {
        d := d + [c];
      }
      j := j + 1;
    }
    assert s[..j] == s;
  }

  /**
   * `getSIMContactNamesByNumber` over the rows of the SIM cursor: the names
   * whose digits end with the digits of `phoneNumber`, then those whose digits
   * start with them and are not listed yet; rows with a null number are skipped.
   */
  method SimContactNamesByNumber(phoneNumber: string, rows: seq<SimRow>, unknownName: string)
    returns (nameList: seq<string>)
    ensures nameList == AppendAbsent(SuffixMatches(rows, Digits(phoneNumber), unknownName),
                                     PrefixMatches(rows, Digits(phoneNumber), unknownName))
  {
    var searchOnlyNumber := OnlyDigits(phoneNumber);
    var startNameList;
    nameList, startNameList := ScanSimRows(searchOnlyNumber, rows, unknownName);
    nameList := AddAbsentNames(nameList, startNameList);
  }

  /** The cursor pass: suffix-matching names and prefix-matching names, each in cursor order. */
  method ScanSimRows(searchOnlyNumber: string, rows: seq<SimRow>, unknownName: string)
    returns (nameList: seq<string>, startNameList: seq<string>)
    ensures nameList == SuffixMatches(rows, searchOnlyNumber, unknownName)
    ensures startNameList == PrefixMatches(rows, searchOnlyNumber, unknownName)
  {
    nameList := [];
    startNameList := [];
    var i := 0;
    while i < |rows|
      invariant 0 <= i <= |rows|
      invariant nameList == SuffixMatches(rows[..i], searchOnlyNumber, unknownName)
      invariant startNameList == PrefixMatches(rows[..i], searchOnlyNumber, unknownName)
    {
      MatchesStep(rows, i, searchOnlyNumber, unknownName);
      var row := rows[i];
      if row.number.Some? {
        var tmpNumber := OnlyDigits(row.number.value);
        if |searchOnlyNumber| <= |tmpNumber|
           && tmpNumber[|tmpNumber| - |searchOnlyNumber|..] == searchOnlyNumber {
          nameList := nameList + [SimName(row, unknownName)];
        }
        if |searchOnlyNumber| <= |tmpNumber| && tmpNumber[..|searchOnlyNumber|] == searchOnlyNumber {
          startNameList := startNameList + [SimName(row, unknownName)];
        }
      }
      i := i + 1;
    }
    assert rows[..i] == rows;
  }

  /** The merge pass: each prefix match not yet in the list is appended. */
  method AddAbsentNames(ends: seq<string>, startNameList: seq<string>) returns (nameList: seq<string>)
    ensures nameList == AppendAbsent(ends, startNameList)
  {
    nameList := ends;
    var index := 0;
    while index < |startNameList|
      invariant 0 <= index <= |startNameList|
      invariant nameList == AppendAbsent(ends, startNameList[..index])
    {
      assert startNameList[..index + 1][..index] == startNameList[..index];
      var name := startNameList[index];
      if name !in nameList {
        nameList := nameList + [name];
      }
      index := index + 1;
    }
    assert startNameList[..index] == startNameList;
  }

  /** The names of a SIM cursor as listed: an empty or null name becomes the default. */
  function SimNames(names: seq<Option<string>>, unknownName: string): (r: seq<string>)
    ensures |r| == |names|
    ensures forall i :: 0 <= i < |names| ==> r[i] == DisplayNameOr(names[i], unknownName)
  {
    if names == [] then []
    else SimNames(names[..|names| - 1], unknownName) + [DisplayNameOr(names[|names| - 1], unknownName)]
  }

  /**
   * `getSIMPhonebookNameList`: the owner's name first, then the SIM names in
   * cursor order, or reordered by `sortIgnoreCase` (the platform's case-insensitive
   * sort, supplied by the caller) when the listing is alphabetical.
   */
  method SimPhonebookNameList(ownerName: string, names: seq<Option<string>>, unknownName: string,
                              order: ListOrder, sortIgnoreCase: seq<string> -> seq<string>)
    returns (nameList: seq<string>)
    ensures |nameList| >= 1 && nameList[0] == ownerName
    ensures order.OrderByAlphabetical? ==> nameList[1..] == sortIgnoreCase(SimNames(names, unknownName))
    ensures !order.OrderByAlphabetical? ==> nameList[1..] == SimNames(names, unknownName)
  {
    nameList := [ownerName];
    var allnames: seq<string> := [];
    var i := 0;
    while i < |names|
      invariant 0 <= i <= |names|
      invariant allnames == SimNames(names[..i], unknownName)
    {
      assert names[..i + 1][..i] == names[..i];
      var name := if names[i].None? || names[i].value == [] then unknownName else names[i].value;
      allnames := allnames + [name];
      i := i + 1;
    }
    assert names[..i] == names;
    if order.OrderByAlphabetical? {
      allnames := sortIgnoreCase(allnames);
    }
    nameList := nameList + allnames;
  }
}
