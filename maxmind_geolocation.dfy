// The MaxMind geolocation request matcher (caddy-maxmind-geolocation, main.go):
// allow and deny lists for countries, subdivisions and metro codes, the decision
// on one looked-up record, and the Caddyfile block that fills the lists.
module MaxmindGeolocation {
  import opened Wrappers
  import opened GoStrings

  /** The value that stands for an unrecognised country, subdivision or metro code. */
  const Unknown: string := "UNK"

  /** The matcher's configuration. */
  datatype Filter = Filter(
    dbPath: string,
    allowCountries: seq<string>,
    denyCountries: seq<string>,
    allowSubdivisions: seq<string>,
    denySubdivisions: seq<string>,
    allowMetroCodes: seq<string>,
    denyMetroCodes: seq<string>)

  const EmptyFilter: Filter := Filter("", [], [], [], [], [], [])

  /** What the database holds for an address: the country's ISO code, the
      subdivisions' ISO codes and the metro code. */
  datatype Record = Record(country: string, subdivisions: seq<string>, metroCode: int)

  // ---------------------------------------------------------------------------
  // The decision

  /** "" and "0" are read as the unknown value. */
  function Normalise(item: string): (r: string)
    ensures (item == "" || item == "0") ==> r == Unknown
    ensures !(item == "" || item == "0") ==> r == item
  {
    if item == "" || item == "0" then Unknown else item
  }

  /** checkAllowed: a non-empty deny list decides alone, then a non-empty allow list;
      with neither, everything is allowed. */
  predicate CheckAllowed(item: string, allowed: seq<string>, denied: seq<string>) {
    var it := Normalise(item);
    if |denied| > 0 then it !in denied
    else if |allowed| > 0 then it in allowed
    else true
  }

  /** The three ways checkAllowed decides, each stated on its own. */
  lemma CheckAllowedCases(item: string, allowed: seq<string>, denied: seq<string>)
    ensures |denied| > 0 ==> (CheckAllowed(item, allowed, denied) <==> Normalise(item) !in denied)
    ensures (|denied| == 0 && |allowed| > 0) ==>
              (CheckAllowed(item, allowed, denied) <==> Normalise(item) in allowed)
    ensures (|denied| == 0 && |allowed| == 0) ==> CheckAllowed(item, allowed, denied)
  {
  }

  /** A deny list takes precedence: the allow list then makes no difference. */
  lemma DenyTakesPrecedence(item: string, allowed1: seq<string>, allowed2: seq<string>, denied: seq<string>)
    requires |denied| > 0
    ensures CheckAllowed(item, allowed1, denied) == CheckAllowed(item, allowed2, denied)
  {
  }

  /** An empty item, "0" and "UNK" are judged alike. */
  lemma UnknownAlike(allowed: seq<string>, denied: seq<string>)
    ensures CheckAllowed("", allowed, denied) == CheckAllowed(Unknown, allowed, denied)
    ensures CheckAllowed("0", allowed, denied) == CheckAllowed(Unknown, allowed, denied)
  {
  }

  /** checkAllowed's loop over the list it consults: the same decision as CheckAllowed. */
  method CheckAllowedLoop(item: string, allowed: seq<string>, denied: seq<string>) returns (ok: bool)
    ensures ok == CheckAllowed(item, allowed, denied)
  {
    var it := item;
    if it == "" || it == "0" {
      it := Unknown;
    }
    if |denied| > 0 {
      for i := 0 to |denied|
        invariant it !in denied[..i]
      {
        if denied[i] == it {
          return false;
        }
      }
      assert denied[..|denied|] == denied;
      return true;
    }
    if |allowed| > 0 {
      for i := 0 to |allowed|
        invariant it !in allowed[..i]
      {
        if allowed[i] == it {
          return true;
        }
      }
      assert allowed[..|allowed|] == allowed;
      return false;
    }
    return true;
  }

  /** Every subdivision is allowed; a record without subdivisions is judged as
      the unknown one. */
  predicate SubdivisionsAllowed(f: Filter, subdivisions: seq<string>) {
    if |subdivisions| > 0 then
      forall i | 0 <= i < |subdivisions| :: CheckAllowed(subdivisions[i], f.allowSubdivisions, f.denySubdivisions)
    else CheckAllowed("", f.allowSubdivisions, f.denySubdivisions)
  }

  /** The decision on a looked-up record: country, subdivisions, then metro code. */
  predicate RecordAllowed(f: Filter, rec: Record) {
    CheckAllowed(rec.country, f.allowCountries, f.denyCountries)
    && SubdivisionsAllowed(f, rec.subdivisions)
    && CheckAllowed(Itoa(rec.metroCode), f.allowMetroCodes, f.denyMetroCodes)
  }

  /** Match: never with both country lists empty; never when the remote address
      does not parse as an IP or its lookup fails; otherwise the record's decision.
      splitHost is net.SplitHostPort's host (None on error, when the whole
      matcher goes on with ""), parseIP whether net.ParseIP accepts a host, and
      lookup the database read. */
  predicate Match(f: Filter, remoteAddr: string, splitHost: string -> Option<string>,
                  parseIP: string -> bool, lookup: string -> Result<Record, string>)
  {
    if |f.allowCountries| < 1 && |f.denyCountries| < 1 then false
    else
      var ip := splitHost(remoteAddr).GetOr("");
      if !parseIP(ip) then false
      else match lookup(ip)
        case Err(_) => false
        case Ok(rec) => RecordAllowed(f, rec)
  }

  /** A request matches exactly when a country list is set, its address parses
      and is found, and the country, every subdivision (or the unknown one when
      there are none) and the metro code are all allowed. */
  lemma MatchExactly(f: Filter, remoteAddr: string, splitHost: string -> Option<string>,
                     parseIP: string -> bool, lookup: string -> Result<Record, string>)
    ensures var ip := splitHost(remoteAddr).GetOr("");
            Match(f, remoteAddr, splitHost, parseIP, lookup) <==>
              ((|f.allowCountries| > 0 || |f.denyCountries| > 0)
               && parseIP(ip) && lookup(ip).Ok?
               && CheckAllowed(lookup(ip).value.country, f.allowCountries, f.denyCountries)
               && (forall i | 0 <= i < |lookup(ip).value.subdivisions| ::
                     CheckAllowed(lookup(ip).value.subdivisions[i], f.allowSubdivisions, f.denySubdivisions))
               && (|lookup(ip).value.subdivisions| == 0 ==>
                     CheckAllowed(Unknown, f.allowSubdivisions, f.denySubdivisions))
               && CheckAllowed(Itoa(lookup(ip).value.metroCode), f.allowMetroCodes, f.denyMetroCodes))
  {
  }

  /** A metro code of 0 is the unknown one. */
  lemma ZeroMetroIsUnknown(f: Filter, rec: Record)
    requires rec.metroCode == 0
    ensures RecordAllowed(f, rec) ==> CheckAllowed(Unknown, f.allowMetroCodes, f.denyMetroCodes)
  {
    assert Itoa(0) == "0" by {
      assert NatToString(0) == "0";
    }
  }

  // ---------------------------------------------------------------------------
  // The Caddyfile block

  /** Which list the next value goes to: 0 none, 1 db_path, 2 allow_countries,
      3 deny_countries, 4 allow_subdivisions, 5 deny_subdivisions,
      6 allow_metro_codes, 7 deny_metro_codes. */
  function KeywordOf(tok: string): (r: Option<int>)
    ensures r.Some? ==> 1 <= r.value <= 7
  {
    if tok == "db_path" then Some(1)
    else if tok == "allow_countries" then Some(2)
    else if tok == "deny_countries" then Some(3)
    else if tok == "allow_subdivisions" then Some(4)
    else if tok == "deny_subdivisions" then Some(5)
    else if tok == "allow_metro_codes" then Some(6)
    else if tok == "deny_metro_codes" then Some(7)
    else None
  }

  /** The state of the block reader: the current keyword, the filled filter, and
      the error that stopped it. */
  datatype Reader = Reader(current: int, filter: Filter, err: Option<string>)

  /** A value token under the current keyword. */
  function Value(current: int, f: Filter, tok: string): Reader {
    if current == 1 then Reader(0, f.(dbPath := tok), None)
    else if current == 2 then Reader(2, f.(allowCountries := f.allowCountries + [tok]), None)
    else if current == 3 then Reader(3, f.(denyCountries := f.denyCountries + [tok]), None)
    else if current == 4 then Reader(4, f.(allowSubdivisions := f.allowSubdivisions + [tok]), None)
    else if current == 5 then Reader(5, f.(denySubdivisions := f.denySubdivisions + [tok]), None)
    else if current == 6 then Reader(6, f.(allowMetroCodes := f.allowMetroCodes + [tok]), None)
    else if current == 7 then Reader(7, f.(denyMetroCodes := f.denyMetroCodes + [tok]), None)
    else Reader(current, f, Some("unexpected config parameter " + tok))
  }

  /** One token: a keyword switches the current list, anything else is a value. */
  function Step(rd: Reader, tok: string): Reader {
    match KeywordOf(tok)
    case Some(k) => rd.(current := k)
    case None => Value(rd.current, rd.filter, tok)
  }

  /** The tokens of the matcher's blocks read in order, from the filter as it was;
      the first error stops the reading and keeps what was filled before it. */
  function Read(f: Filter, toks: seq<string>): Reader
    decreases |toks|
  {
    if |toks| == 0 then Reader(0, f, None)
    else
      var rd := Read(f, toks[..|toks| - 1]);
      if rd.err.Some? then rd else Step(rd, toks[|toks| - 1])
  }

  /** A value before any keyword is an error that changes nothing. */
  lemma ValueWithoutKeyword(f: Filter, tok: string)
    requires KeywordOf(tok).None?
    ensures Read(f, [tok]) == Reader(0, f, Some("unexpected config parameter " + tok))
  {
    assert [tok][..0] == [];
  }

  /** Keyword then value: the reader with the value applied, on top of what came before. */
  lemma ReadSnoc(f: Filter, toks: seq<string>, tok: string)
    ensures Read(f, toks + [tok]) == (if Read(f, toks).err.Some? then Read(f, toks) else Step(Read(f, toks), tok))
  {
    assert (toks + [tok])[..|toks|] == toks;
  }

  /** The values following a list keyword are appended to that list in order. */
  lemma {:induction false} ListValuesAppend(f: Filter, toks: seq<string>, vals: seq<string>)
    requires Read(f, toks).err.None? && Read(f, toks).current == 2
    requires forall i | 0 <= i < |vals| :: KeywordOf(vals[i]).None?
    ensures Read(f, toks + vals).err.None?
    ensures Read(f, toks + vals).current == 2
    ensures Read(f, toks + vals).filter
            == Read(f, toks).filter.(allowCountries := Read(f, toks).filter.allowCountries + vals)
    decreases |vals|
  {
    if |vals| == 0 {
      assert toks + vals == toks;
    } else {
      var init := vals[..|vals| - 1];
      var last := vals[|vals| - 1];
      ListValuesAppend(f, toks, init);
      assert toks + vals == (toks + init) + [last];
      ReadSnoc(f, toks + init, last);
      assert init + [last] == vals;
    }
  }

  /** db_path takes exactly one value and then no list is current. */
  lemma DbPathTakesOne(f: Filter, toks: seq<string>, path: string)
    requires Read(f, toks).err.None?
    requires KeywordOf(path).None?
    ensures var rd := Read(f, toks + ["db_path", path]);
            rd.err.None? && rd.current == 0 && rd.filter == Read(f, toks).filter.(dbPath := path)
  {
    assert toks + ["db_path", path] == (toks + ["db_path"]) + [path];
    ReadSnoc(f, toks, "db_path");
    ReadSnoc(f, toks + ["db_path"], path);
  }

  /** The matcher's configuration, filled in place by UnmarshalCaddyfile. */
  class MaxmindGeolocation {
    var dbPath: string
    var allowCountries: seq<string>
    var denyCountries: seq<string>
    var allowSubdivisions: seq<string>
    var denySubdivisions: seq<string>
    var allowMetroCodes: seq<string>
    var denyMetroCodes: seq<string>

    constructor ()
      ensures View() == EmptyFilter
    {
      dbPath, allowCountries, denyCountries := "", [], [];
      allowSubdivisions, denySubdivisions := [], [];
      allowMetroCodes, denyMetroCodes := [], [];
    }

    function View(): Filter
      reads this
    {
      Filter(dbPath, allowCountries, denyCountries, allowSubdivisions, denySubdivisions,
             allowMetroCodes, denyMetroCodes)
    }

    /** UnmarshalCaddyfile: toks are the tokens inside the matcher's blocks, in order. */
    method UnmarshalCaddyfile(toks: seq<string>) returns (err: Option<string>)
      modifies this
      ensures View() == Read(old(View()), toks).filter
      ensures err == Read(old(View()), toks).err
    {
      ghost var f0 := View();
      var current := 0;
      var i := 0;
      err := None;
      while i < |toks|
        invariant 0 <= i <= |toks|
        invariant Read(f0, toks[..i]) == Reader(current, View(), None)
      {
        ReadSnoc(f0, toks[..i], toks[i]);
        assert toks[..i + 1] == toks[..i] + [toks[i]];
        var tok := toks[i];
        var kw := KeywordOf(tok);
        if kw.Some? {
          current := kw.value;
        } else if current == 1 {
          dbPath := tok;
          current := 0;
        } else if current == 2 {
          allowCountries := allowCountries + [tok];
        } else if current == 3 {
          denyCountries := denyCountries + [tok];
        } else if current == 4 {
          allowSubdivisions := allowSubdivisions + [tok];
        } else if current == 5 {
          denySubdivisions := denySubdivisions + [tok];
        } else if current == 6 {
          allowMetroCodes := allowMetroCodes + [tok];
        } else if current == 7 {
          denyMetroCodes := denyMetroCodes + [tok];
        } else {
          err := Some("unexpected config parameter " + tok);
          ReadErrorSticks(f0, toks, i + 1);
          return;
        }
        i := i + 1;
      }
      assert toks[..|toks|] == toks;
    }

    /** Match on the configured lists. */
    method Matches(remoteAddr: string, splitHost: string -> Option<string>,
                   parseIP: string -> bool, lookup: string -> Result<Record, string>)
      returns (ok: bool)
      ensures ok == Match(View(), remoteAddr, splitHost, parseIP, lookup)
    {
      if |allowCountries| < 1 && |denyCountries| < 1 {
        return false;
      }
      var ip := splitHost(remoteAddr).GetOr("");
      if !parseIP(ip) {
        return false;
      }
      var rec := lookup(ip);
      if rec.Err? {
        return false;
      }
      var r := rec.value;
      ok := CheckAllowedLoop(r.country, allowCountries, denyCountries);
      if !ok {
        return false;
      }
      if |r.subdivisions| > 0 {
        for i := 0 to |r.subdivisions|
          invariant forall j | 0 <= j < i :: CheckAllowed(r.subdivisions[j], allowSubdivisions, denySubdivisions)
        {
          ok := CheckAllowedLoop(r.subdivisions[i], allowSubdivisions, denySubdivisions);
          if !ok {
            return false;
          }
        }
      } else {
        ok := CheckAllowedLoop("", allowSubdivisions, denySubdivisions);
        if !ok {
          return false;
        }
      }
      ok := CheckAllowedLoop(Itoa(r.metroCode), allowMetroCodes, denyMetroCodes);
    }
  }

  /** Once the reader has stopped on an error, later tokens change nothing. */
  lemma {:induction false} ReadErrorSticks(f: Filter, toks: seq<string>, i: nat)
    requires i <= |toks|
    requires Read(f, toks[..i]).err.Some?
    ensures Read(f, toks) == Read(f, toks[..i])
    decreases |toks| - i
  {
    if i < |toks| {
      ReadSnoc(f, toks[..i], toks[i]);
      assert toks[..i + 1] == toks[..i] + [toks[i]];
      ReadErrorSticks(f, toks, i + 1);
    } else {
      assert toks[..i] == toks;
    }
  }
}
