/** `POLLUTANT_DB`: the static alias -> description table, and the lookups the pollutant explainer
    makes in it (by lower-cased alias, and by scanning a text for aliases). */
module Pollutants {
  import opened Wrappers
  import opened Strings

  const CarbonMonoxide := "Carbon Monoxide (CO) is a toxic gas produced by incomplete burning of fuels. In high concentrations, it reduces oxygen in the bloodstream."
  const SulphurDioxide := "Sulphur Dioxide (SO\U{2082}) is a gas from burning fossil fuels like coal and oil. It harms the respiratory system and contributes to acid rain."
  const Ozone := "Ground-level Ozone (O\U{2083}) is a major pollutant created when sunlight reacts with emissions from vehicles and industry. It is a key component of smog."
  const NitrogenDioxide := "Nitrogen Dioxide (NO\U{2082}) comes from burning fuel, mainly from vehicles and power plants. It can irritate the respiratory system."
  const FineParticles := "PM2.5 are fine inhalable particles that can travel deep into the respiratory tract, reaching the lungs and causing serious health issues."
  const CoarseParticles := "PM10 are coarse inhalable particles from sources like dust and construction. They can irritate the eyes, nose, and throat."

  /** The table in its insertion order, which is the order a Python dict iterates in. */
  const Table: seq<(string, string)> := [
    ("carbon monoxide", CarbonMonoxide),
    ("co", CarbonMonoxide),
    ("sulphur dioxide", SulphurDioxide),
    ("so2", SulphurDioxide),
    ("ozone", Ozone),
    ("o3", Ozone),
    ("nitrogen dioxide", NitrogenDioxide),
    ("no2", NitrogenDioxide),
    ("pm2.5", FineParticles),
    ("pm10", CoarseParticles)
  ]

  /** The aliases, in table order. */
  function Keys(): (ks: seq<string>)
    ensures |ks| == |Table|
    ensures forall i :: 0 <= i < |Table| ==> ks[i] == Table[i].0
  {
    seq(|Table|, i requires 0 <= i < |Table| => Table[i].0)
  }

  ghost predicate Distinct(xs: seq<string>) {
    forall i, j :: 0 <= i < j < |xs| ==> xs[i] != xs[j]
  }

  /** A dict has no repeated keys, and every description is non-empty. */
  lemma TableWellFormed()
    ensures Distinct(Keys())
    ensures forall i :: 0 <= i < |Table| ==> Table[i].1 != ""
    ensures forall i :: 0 <= i < |Table| ==> Lower(Table[i].0) == Table[i].0
  {
  }

  /** First entry of `t` whose key is `alias`, as `dict.get(alias)` sees it. */
  function Find(t: seq<(string, string)>, alias: string): (r: Option<string>)
    ensures r.None? <==> forall i :: 0 <= i < |t| ==> t[i].0 != alias
    ensures r.Some? ==> exists i :: 0 <= i < |t| && t[i] == (alias, r.value)
  {
    if |t| == 0 then None
    else if t[0].0 == alias then Some(t[0].1)
    else
      var rest := Find(t[1..], alias);
      assert forall i :: 1 <= i < |t| ==> t[i] == t[1..][i - 1];
      rest
  }

  /** `POLLUTANT_DB.get(alias)`. */
  function Describe(alias: string): (r: Option<string>)
    ensures r.Some? <==> alias in Keys()
    ensures forall i :: 0 <= i < |Table| && Table[i].0 == alias ==> r == Some(Table[i].1)
  {
    TableWellFormed();
    Find(Table, alias)
  }

  /** Position of `k` in `keys`. */
  function IndexOf(keys: seq<string>, k: string): (i: nat)
    requires k in keys
    ensures i < |keys| && keys[i] == k
    ensures forall j :: 0 <= j < i ==> keys[j] != k
  {
    if keys[0] == k then 0 else 1 + IndexOf(keys[1..], k)
  }

  /** `[k for k in keys if k in text]`. */
  function Scan(keys: seq<string>, text: string): (r: seq<string>)
    ensures |r| <= |keys|
    ensures forall k :: k in r <==> k in keys && Occurs(k, text)
  {
    if |keys| == 0 then []
    else
      var rest := Scan(keys[1..], text);
      if Contains(text, keys[0]) then [keys[0]] + rest else rest
  }

  /** Past a first key that `x` is not, positions shift by one. */
  lemma IndexOfTail(keys: seq<string>, x: string)
    requires Distinct(keys) && |keys| > 0 && x in keys[1..]
    ensures x != keys[0] && IndexOf(keys, x) == 1 + IndexOf(keys[1..], x)
  {
  }

  /** The scan lists its matches in the order of `keys`, never in the order they occur in the text. */
  lemma {:induction false} ScanKeepsKeyOrder(keys: seq<string>, text: string)
    requires Distinct(keys)
    ensures forall i, j :: 0 <= i < j < |Scan(keys, text)| ==>
      IndexOf(keys, Scan(keys, text)[i]) < IndexOf(keys, Scan(keys, text)[j])
    decreases |keys|
  {
    if |keys| > 0 {
      var tail := keys[1..];
      assert Distinct(tail) by {
        forall i, j | 0 <= i < j < |tail| ensures tail[i] != tail[j] {
          assert tail[i] == keys[i + 1] && tail[j] == keys[j + 1];
        }
      }
      var rest := Scan(tail, text);
      var r := Scan(keys, text);
      ScanKeepsKeyOrder(tail, text);
      forall i, j | 0 <= i < j < |r|
        ensures IndexOf(keys, r[i]) < IndexOf(keys, r[j])
      {
        if Contains(text, keys[0]) {
          assert r == [keys[0]] + rest;
          assert r[j] == rest[j - 1];
          IndexOfTail(keys, rest[j - 1]);
          if i > 0 {
            assert r[i] == rest[i - 1];
            IndexOfTail(keys, rest[i - 1]);
          }
        } else {
          assert r == rest;
          IndexOfTail(keys, rest[i]);
          IndexOfTail(keys, rest[j]);
        }
      }
    }
  }

  /** The explainer's keyword fallback: the aliases that occur in the lower-cased text, in table order. */
  function KeywordScan(text: string): (r: seq<string>)
    ensures forall k :: k in r <==> k in Keys() && Occurs(k, Lower(text))
    ensures forall i, j :: 0 <= i < j < |r| ==> IndexOf(Keys(), r[i]) < IndexOf(Keys(), r[j])
  {
    TableWellFormed();
    ScanKeepsKeyOrder(Keys(), Lower(text));
    Scan(Keys(), Lower(text))
  }

  /** The piece of the answer for an alias the table does not know. */
  function UnknownPiece(p: string): string {
    "I don't have specific information on '" + p + "'."
  }

  /** The answer piece for one query: the description of its lower-cased form, or the fallback
      sentence quoting the query as given. */
  function Piece(p: string): (r: string)
    ensures Lower(p) in Keys() ==> r == Describe(Lower(p)).value
    ensures Lower(p) !in Keys() ==> r == UnknownPiece(p)
  {
    var d := Describe(Lower(p));
    TableWellFormed();
    if d.Some? && d.value != "" then d.value else UnknownPiece(p)
  }

  /** Aliases are matched whatever their case: a query that lower-cases to a known alias gets
      that alias's description. */
  lemma KnownAliasExplained(p: string, i: nat)
    requires i < |Table| && Lower(p) == Table[i].0
    ensures Piece(p) == Table[i].1
  {
  }

  /** One answer piece per query, in query order. */
  function Pieces(queries: seq<string>): (r: seq<string>)
    ensures |r| == |queries|
    ensures forall i :: 0 <= i < |queries| ==> r[i] == Piece(queries[i])
  {
    seq(|queries|, i requires 0 <= i < |queries| => Piece(queries[i]))
  }

  /** Of all aliases only "pm2.5" occurs in "what about pm2.5". */
  lemma OnlyFineParticlesOccur(t: string)
    requires t == "what about pm2.5"
    ensures Occurs(Keys()[8], t)
    ensures forall i :: 0 <= i < |Table| && i != 8 ==> !Occurs(Keys()[i], t)
  {
    var ks := Keys();
    assert ks[8] == "pm2.5";
    assert t[11..] == ks[8];
    assert StartsWith(t[11..], ks[8]);
    forall i | 0 <= i < |Table| && i != 8
      ensures !Occurs(ks[i], t)
    {
      var c := if i < 2 then 'c' else if i < 4 then 's' else if i == 4 then 'z'
               else if i == 5 then '3' else if i < 8 then 'n' else '1';
      assert c in ks[i];
      MissingCharNoOccurrence(ks[i], t, c);
    }
  }

  /** When no key occurs, the scan finds nothing. */
  lemma {:induction false} ScanNone(keys: seq<string>, text: string)
    requires forall i :: 0 <= i < |keys| ==> !Occurs(keys[i], text)
    ensures Scan(keys, text) == []
    decreases |keys|
  {
    if |keys| > 0 {
      ScanNone(keys[1..], text);
    }
  }

  /** When exactly the key at position `m` occurs, the scan finds exactly that key. */
  lemma {:induction false} ScanOnly(keys: seq<string>, text: string, m: nat)
    requires m < |keys| && Occurs(keys[m], text)
    requires forall i :: 0 <= i < |keys| && i != m ==> !Occurs(keys[i], text)
    ensures Scan(keys, text) == [keys[m]]
    decreases |keys|
  {
    if m == 0 {
      ScanNone(keys[1..], text);
    } else {
      ScanOnly(keys[1..], text, m - 1);
    }
  }

  /** The fallback finds "pm2.5" and nothing else in "what about pm2.5". */
  lemma ScanFindsFineParticles(text: string)
    requires text == "what about pm2.5"
    ensures KeywordScan(text) == [Keys()[8]]
  {
    var t := Lower(text);
    assert t == "what about pm2.5";
    OnlyFineParticlesOccur(t);
    ScanOnly(Keys(), t, 8);
  }
}
