/**
 * The CoinGecko client (Services/CoinGeckoApiClient.cs): the display-name
 * table, `StringExtensions.ToTitleCase`, and how one price response becomes
 * the list of records handed back to the monitor.
 *
 * The HTTP request and the JSON parsing are not modelled: a response is
 * either a transport error (`HttpRequestException`), another failure before
 * any data was read (a timeout, malformed JSON), or an abstract parsed object
 * mapping each id to its `usd`, `usd_24h_change` and `usd_market_cap` values.
 */
module CoinGecko {
  import opened Wrappers
  import opened Text
  import opened Models

  /** The `Status` of a record built from response data. */
  const Online := "線上"
  /** The `Status` of the fallback records built on a transport error. */
  const ConnectionError := "連線錯誤"

  // ---------------------------------------------------------------------
  // ToTitleCase

  /**
   * The reference definition of title case, one character at a time: spaces
   * stay, a character that starts a word (first position or after a space)
   * is upper-cased, and every other character is lower-cased.
   */
  function TitleCaseAt(s: string, i: nat): char
    requires i < |s|
  {
    if s[i] == ' ' then ' '
    else if i == 0 || s[i - 1] == ' ' then Upper(s[i])
    else Lower(s[i])
  }

  function TitleCase(s: string): (r: string)
    ensures |r| == |s|
  {
    seq(|s|, i requires 0 <= i < |s| => TitleCaseAt(s, i))
  }

  /** Position of the first space, or `|s|` when there is none. */
  function IndexOfSpace(s: string): (k: nat)
    ensures k <= |s|
    ensures forall j :: 0 <= j < k ==> s[j] != ' '
    ensures k < |s| ==> s[k] == ' '
  {
    if s == [] || s[0] == ' ' then 0 else 1 + IndexOfSpace(s[1..])
  }

  /** `input.Split(' ')`: consecutive spaces give empty words. */
  function Split(s: string): (words: seq<string>)
    ensures |words| >= 1
    ensures forall k :: 0 <= k < |words| ==> ' ' !in words[k]
    decreases |s|
  {
    var k := IndexOfSpace(s);
    if k == |s| then [s] else [s[..k]] + Split(s[k + 1..])
  }

  /** `string.Join(" ", words)`. */
  function Join(words: seq<string>): string
  {
    if |words| == 0 then ""
    else if |words| == 1 then words[0]
    else words[0] + " " + Join(words[1..])
  }

  /** Splitting on spaces and joining with spaces gives the string back. */
  lemma {:induction false} JoinSplit(s: string)
    ensures Join(Split(s)) == s
    decreases |s|
  {
    var k := IndexOfSpace(s);
    if k < |s| {
      JoinSplit(s[k + 1..]);
      Rejoin(s, k);
    }
  }

  /** The rewrite of one word inside the loop of `ToTitleCase`. */
  function TitleWord(w: string): string
  {
    if |w| > 0 then [Upper(w[0])] + LowerAll(w[1..]) else w
  }

  function TitleWords(words: seq<string>): (r: seq<string>)
    ensures |r| == |words|
  {
    seq(|words|, k requires 0 <= k < |words| => TitleWord(words[k]))
  }

  /** On a single word the reference definition is the word rewrite. */
  lemma TitleCaseOneWord(w: string)
    requires ' ' !in w
    ensures TitleCase(w) == TitleWord(w)
  {
    if |w| > 0 {
      var t := [Upper(w[0])] + LowerAll(w[1..]);
      forall i | 0 <= i < |w|
        ensures TitleCaseAt(w, i) == t[i]
      {
        assert w[i] != ' ' by { assert w[i] in w; }
        if i > 0 {
          assert w[i - 1] != ' ' by { assert w[i - 1] in w; }
          assert t[i] == Lower(w[1..][i - 1]) && w[1..][i - 1] == w[i];
        }
      }
      assert TitleCase(w) == t;
    }
  }

  /** The reference definition distributes over the first space. */
  lemma TitleCaseAtSpace(w: string, rest: string)
    requires ' ' !in w
    ensures TitleCase(w + " " + rest) == TitleCase(w) + " " + TitleCase(rest)
  {
    var s := w + " " + rest;
    forall i | 0 <= i < |s|
      ensures TitleCase(s)[i] == (TitleCase(w) + " " + TitleCase(rest))[i]
    {
      if i < |w| {
        assert s[i] == w[i];
        if i > 0 { assert s[i - 1] == w[i - 1]; }
      } else if i > |w| {
        var j := i - |w| - 1;
        assert s[i] == rest[j];
        if j > 0 { assert s[i - 1] == rest[j - 1]; }
      }
    }
  }

  lemma JoinCons(w: string, words: seq<string>)
    requires |words| >= 1
    ensures Join([w] + words) == w + " " + Join(words)
  {
    assert ([w] + words)[1..] == words;
  }

  lemma TitleWordsCons(w: string, words: seq<string>)
    ensures TitleWords([w] + words) == [TitleWord(w)] + TitleWords(words)
  {
  }

  /** Splitting at the first space. */
  lemma SplitAtSpace(s: string, k: nat)
    requires k == IndexOfSpace(s) < |s|
    ensures s == s[..k] + " " + s[k + 1..]
    ensures ' ' !in s[..k]
    ensures Split(s) == [s[..k]] + Split(s[k + 1..])
  {
    forall j | 0 <= j < k ensures s[..k][j] != ' ' { }
    Rejoin(s, k);
  }

  lemma Rejoin(s: string, k: nat)
    requires k < |s| && s[k] == ' '
    ensures s == s[..k] + " " + s[k + 1..]
  {
    forall j | 0 <= j < |s| ensures s[j] == (s[..k] + " " + s[k + 1..])[j] { }
  }

  /** The word-by-word rewrite of the source agrees with the reference definition. */
  lemma {:induction false} TitleWordsCorrect(s: string)
    ensures Join(TitleWords(Split(s))) == TitleCase(s)
    decreases |s|
  {
    var k := IndexOfSpace(s);
    if k == |s| {
      assert ' ' !in s by {
        forall j | 0 <= j < |s| ensures s[j] != ' ' { }
      }
      assert Split(s) == [s];
      assert TitleWords([s]) == [TitleWord(s)];
      TitleCaseOneWord(s);
    } else {
      SplitAtSpace(s, k);
      var w, rest := s[..k], s[k + 1..];
      TitleWordsCorrect(rest);
      TitleCaseOneWord(w);
      TitleCaseAtSpace(w, rest);
      TitleWordsCons(w, Split(rest));
      JoinCons(TitleWord(w), TitleWords(Split(rest)));
    }
  }

  /**
   * `StringExtensions.ToTitleCase`: the empty string is returned as it is;
   * otherwise the input is split into words on ' ', each non-empty word is
   * rewritten in place in the `words` array, and the words are joined again.
   */
  method ToTitleCase(input: string) returns (r: string)
    ensures r == TitleCase(input)
  {
    if |input| == 0 {
      return input;
    }
    var parts := Split(input);
    var words := new string[|parts|](k requires 0 <= k < |parts| => parts[k]);
    assert words[..] == parts;
    TitleWordsInPlace(words);
    r := Join(words[..]);
    TitleWordsCorrect(input);
  }

  /** The `for` loop of `ToTitleCase`: every non-empty word of the array is rewritten in place. */
  method TitleWordsInPlace(words: array<string>)
    modifies words
    ensures words[..] == TitleWords(old(words[..]))
  {
    ghost var parts := words[..];
    for i := 0 to words.Length
      invariant forall k :: 0 <= k < i ==> words[k] == TitleWord(parts[k])
      invariant forall k :: i <= k < words.Length ==> words[k] == parts[k]
    {
      if |words[i]| > 0 {
        words[i] := [Upper(words[i][0])] + LowerAll(words[i][1..]);
      }
    }
    assert words[..] == TitleWords(parts);
  }

  /** Title case keeps the length and every space, and cases each word. */
  lemma TitleCaseShape(s: string)
    ensures |TitleCase(s)| == |s|
    ensures forall i :: 0 <= i < |s| ==> (TitleCase(s)[i] == ' ' <==> s[i] == ' ')
    ensures forall i :: 0 <= i < |s| && s[i] != ' ' && (i == 0 || s[i - 1] == ' ') ==>
              TitleCase(s)[i] == Upper(s[i])
    ensures forall i :: 0 < i < |s| && s[i] != ' ' && s[i - 1] != ' ' ==>
              TitleCase(s)[i] == Lower(s[i])
    ensures s == "" ==> TitleCase(s) == ""
  {
  }

  /** Title-casing twice is the same as title-casing once. */
  lemma TitleCaseIdempotent(s: string)
    ensures TitleCase(TitleCase(s)) == TitleCase(s)
  {
    var t := TitleCase(s);
    forall i | 0 <= i < |s|
      ensures TitleCase(t)[i] == t[i]
    {
      assert t[i] == TitleCaseAt(s, i);
      if i > 0 { assert t[i - 1] == TitleCaseAt(s, i - 1); }
    }
  }

  // ---------------------------------------------------------------------
  // GetCryptoName

  /** The ids the `switch` of `GetCryptoName` knows, and their names. */
  const KnownIds: seq<string> := ["bitcoin", "ethereum", "binancecoin", "cardano", "solana",
                                   "polkadot", "dogecoin", "matic-network", "chainlink", "litecoin"]
  const KnownNames: seq<string> := ["Bitcoin", "Ethereum", "BNB", "Cardano", "Solana",
                                     "Polkadot", "Dogecoin", "Polygon", "Chainlink", "Litecoin"]

  /** `cryptoId.Replace("-", " ")`. */
  function ReplaceHyphens(s: string): (r: string)
    ensures |r| == |s|
  {
    seq(|s|, i requires 0 <= i < |s| => if s[i] == '-' then ' ' else s[i])
  }

  /** `GetCryptoName`: a fixed name for a known id, otherwise the id in title case. */
  function GetCryptoName(cryptoId: string): (name: string)
    ensures |name| == 0 <==> |cryptoId| == 0
  {
    if cryptoId == "bitcoin" then "Bitcoin"
    else if cryptoId == "ethereum" then "Ethereum"
    else if cryptoId == "binancecoin" then "BNB"
    else if cryptoId == "cardano" then "Cardano"
    else if cryptoId == "solana" then "Solana"
    else if cryptoId == "polkadot" then "Polkadot"
    else if cryptoId == "dogecoin" then "Dogecoin"
    else if cryptoId == "matic-network" then "Polygon"
    else if cryptoId == "chainlink" then "Chainlink"
    else if cryptoId == "litecoin" then "Litecoin"
    else TitleCase(ReplaceHyphens(cryptoId))
  }

  /** Each known id gets its fixed name. */
  lemma GetCryptoNameKnown(i: nat)
    requires i < |KnownIds|
    ensures GetCryptoName(KnownIds[i]) == KnownNames[i]
  {
  }

  /**
   * Any other id keeps its length; hyphens and spaces become the word
   * separators, the first letter of each word is upper-cased and the rest
   * lower-cased.
   */
  lemma GetCryptoNameFallback(cryptoId: string)
    requires cryptoId !in KnownIds
    ensures var name := GetCryptoName(cryptoId);
      && |name| == |cryptoId|
      && (forall i :: 0 <= i < |cryptoId| ==> (name[i] == ' ' <==> cryptoId[i] in "- "))
      && (forall i :: 0 <= i < |cryptoId| && cryptoId[i] !in "- " && (i == 0 || cryptoId[i - 1] in "- ") ==>
            name[i] == Upper(cryptoId[i]))
      && (forall i :: 0 < i < |cryptoId| && cryptoId[i] !in "- " && cryptoId[i - 1] !in "- " ==>
            name[i] == Lower(cryptoId[i]))
  {
    var r := ReplaceHyphens(cryptoId);
    assert GetCryptoName(cryptoId) == TitleCase(r);
    TitleCaseShape(r);
  }

  lemma GetCryptoNameExample()
    ensures GetCryptoName("shiba-inu") == "Shiba Inu"
  {
    assert "shiba-inu" !in KnownIds;
    var r := ReplaceHyphens("shiba-inu");
    assert r == "shiba inu";
  }

  // ---------------------------------------------------------------------
  // GetCryptoPricesAsync

  /** One field of a coin object: absent (read as 0), a number, or a value `Value<decimal>()` rejects. */
  datatype Field = Missing | Number(value: real) | Unconvertible

  /**
   * The token stored under one id: a null reference (skipped by the
   * `cryptoData != null` guard), an object with the three price fields, or any
   * other token, whose indexing throws.
   */
  datatype CoinData = NullToken | Quote(usd: Field, usd24hChange: Field, usdMarketCap: Field) | NotAnObject

  /** The outcome of the request and the parse. */
  datatype Response =
    | TransportError
    | RequestFailed
    | Parsed(data: Option<map<string, CoinData>>)

  function FieldValue(f: Field): real
  {
    if f.Number? then f.value else 0.0
  }

  /** Reading this token throws inside the loop, ending it early. */
  predicate Malformed(d: CoinData)
  {
    d.NotAnObject? || (d.Quote? && (d.usd.Unconvertible? || d.usd24hChange.Unconvertible? || d.usdMarketCap.Unconvertible?))
  }

  /** The record built for an id with a readable quote. */
  function OnlineRecord(cryptoId: string, d: CoinData, now: int): CryptoFields
    requires d.Quote?
  {
    CryptoFields(UpperAll(cryptoId), GetCryptoName(cryptoId),
                 FieldValue(d.usd), FieldValue(d.usd24hChange), FieldValue(d.usdMarketCap),
                 now, Online)
  }

  /** The fallback record built for every requested id on a transport error. */
  function ErrorRecord(cryptoId: string): CryptoFields
  {
    Defaults.(symbol := UpperAll(cryptoId), name := GetCryptoName(cryptoId), status := ConnectionError)
  }

  /** Whether the `foreach` over the ids yields a record for this id. */
  predicate Readable(data: map<string, CoinData>, cryptoId: string)
  {
    cryptoId in data && data[cryptoId].Quote? && !Malformed(data[cryptoId])
  }

  predicate Throws(data: map<string, CoinData>, cryptoId: string)
  {
    cryptoId in data && Malformed(data[cryptoId])
  }

  /** The records built so far and whether an exception ended the loop. */
  datatype Collected = Collected(entries: seq<CryptoFields>, aborted: bool)

  /** The `foreach` over the requested ids, as a function of its prefix. */
  function Collect(ids: seq<string>, data: map<string, CoinData>, now: int): (c: Collected)
    ensures |c.entries| <= |ids|
    decreases |ids|
  {
    if ids == [] then Collected([], false)
    else
      var before := Collect(ids[..|ids| - 1], data, now);
      var id := ids[|ids| - 1];
      if before.aborted then before
      else if Throws(data, id) then before.(aborted := true)
      else if Readable(data, id) then before.(entries := before.entries + [OnlineRecord(id, data[id], now)])
      else before
  }

  /** Reference: one record per requested id with readable data, in request order. */
  function Present(ids: seq<string>, data: map<string, CoinData>, now: int): seq<CryptoFields>
  {
    if ids == [] then []
    else (if Readable(data, ids[0]) then [OnlineRecord(ids[0], data[ids[0]], now)] else [])
         + Present(ids[1..], data, now)
  }

  lemma {:induction false} PresentSnoc(ids: seq<string>, data: map<string, CoinData>, now: int)
    requires ids != []
    ensures var id := ids[|ids| - 1];
            Present(ids, data, now) == Present(ids[..|ids| - 1], data, now)
              + (if Readable(data, id) then [OnlineRecord(id, data[id], now)] else [])
    decreases |ids|
  {
    var init, id := ids[..|ids| - 1], ids[|ids| - 1];
    var last := if Readable(data, id) then [OnlineRecord(id, data[id], now)] else [];
    var first := if Readable(data, ids[0]) then [OnlineRecord(ids[0], data[ids[0]], now)] else [];
    if |ids| == 1 {
      assert init == [] && id == ids[0] && ids[1..] == [];
      assert Present(ids, data, now) == first + Present([], data, now);
    } else {
      assert init != [] && init[0] == ids[0];
      assert init[1..] == ids[1..][..|ids[1..]| - 1];
      assert ids[1..][|ids[1..]| - 1] == id;
      PresentSnoc(ids[1..], data, now);
      calc {
        Present(ids, data, now);
        first + Present(ids[1..], data, now);
        first + (Present(init[1..], data, now) + last);
        (first + Present(init[1..], data, now)) + last;
        Present(init, data, now) + last;
      }
    }
  }

  /**
   * The loop stops at the first id whose data throws; until then it yields
   * exactly the reference list, so what it returns is always a prefix of it:
   * the records of the readable ids before the first throwing id.
   */
  lemma CollectIsPresentPrefix(ids: seq<string>, data: map<string, CoinData>, now: int)
    ensures Collect(ids, data, now).entries <= Present(ids, data, now)
    ensures Collect(ids, data, now).aborted <==> exists j :: 0 <= j < |ids| && Throws(data, ids[j])
    ensures !Collect(ids, data, now).aborted ==> Collect(ids, data, now).entries == Present(ids, data, now)
    ensures forall j :: 0 <= j < |ids| && Throws(data, ids[j]) && (forall i :: 0 <= i < j ==> !Throws(data, ids[i])) ==>
              Collect(ids, data, now).entries == Present(ids[..j], data, now)
  {
    CollectPrefix(ids, data, now);
    CollectAbortedIff(ids, data, now);
    forall j | 0 <= j < |ids| && Throws(data, ids[j]) && (forall i :: 0 <= i < j ==> !Throws(data, ids[i]))
      ensures Collect(ids, data, now).entries == Present(ids[..j], data, now)
    {
      CollectStopsAtFirstThrow(ids, data, now, j);
    }
  }

  /** When `ids[j]` is the first id whose data throws, the loop returns the reference list of `ids[..j]`. */
  lemma CollectStopsAtFirstThrow(ids: seq<string>, data: map<string, CoinData>, now: int, j: nat)
    requires j < |ids| && Throws(data, ids[j])
    requires forall i :: 0 <= i < j ==> !Throws(data, ids[i])
    ensures Collect(ids, data, now).entries == Present(ids[..j], data, now)
  {
    var init := ids[..j];
    forall i | 0 <= i < |init|
      ensures !Throws(data, init[i])
    {
      assert init[i] == ids[i];
    }
    CollectAbortedIff(init, data, now);
    CollectPrefix(init, data, now);
    assert ids[..j + 1][..j] == init;
    assert ids[..j + 1][j] == ids[j];
    assert Collect(ids[..j + 1], data, now) == Collect(init, data, now).(aborted := true);
    CollectAbortSticks(ids, data, now, j + 1);
  }

  lemma {:induction false} CollectPrefix(ids: seq<string>, data: map<string, CoinData>, now: int)
    ensures Collect(ids, data, now).entries <= Present(ids, data, now)
    ensures !Collect(ids, data, now).aborted ==> Collect(ids, data, now).entries == Present(ids, data, now)
    decreases |ids|
  {
    if ids != [] {
      CollectPrefix(ids[..|ids| - 1], data, now);
      PresentSnoc(ids, data, now);
    }
  }

  lemma {:induction false} CollectAbortedIff(ids: seq<string>, data: map<string, CoinData>, now: int)
    ensures Collect(ids, data, now).aborted <==> exists j :: 0 <= j < |ids| && Throws(data, ids[j])
    decreases |ids|
  {
    if ids != [] {
      var init := ids[..|ids| - 1];
      CollectAbortedIff(init, data, now);
      if exists j :: 0 <= j < |init| && Throws(data, init[j]) {
        var j :| 0 <= j < |init| && Throws(data, init[j]);
        assert ids[j] == init[j];
      }
      if exists j :: 0 <= j < |ids| && Throws(data, ids[j]) {
        var j :| 0 <= j < |ids| && Throws(data, ids[j]);
        if j < |init| { assert init[j] == ids[j]; }
      }
    }
  }

  lemma {:induction false} CollectAbortSticks(ids: seq<string>, data: map<string, CoinData>, now: int, k: nat)
    requires k <= |ids|
    requires Collect(ids[..k], data, now).aborted
    ensures Collect(ids, data, now) == Collect(ids[..k], data, now)
    decreases |ids| - k
  {
    if k < |ids| {
      assert ids[..k + 1][..k] == ids[..k];
      CollectAbortSticks(ids, data, now, k + 1);
    } else {
      assert ids[..k] == ids;
    }
  }

  /** What `GetCryptoPricesAsync` returns for a response. */
  function PricesFor(cryptoIds: seq<string>, response: Response, now: int): (prices: seq<CryptoFields>)
    ensures |prices| <= |cryptoIds|
    ensures response.TransportError? ==> |prices| == |cryptoIds|
    ensures response.RequestFailed? || response == Parsed(None) ==> prices == []
  {
    match response
    case TransportError => seq(|cryptoIds|, i requires 0 <= i < |cryptoIds| => ErrorRecord(cryptoIds[i]))
    case RequestFailed => []
    case Parsed(data) => if data.Some? then Collect(cryptoIds, data.value, now).entries else []
  }

  /**
   * `GetCryptoPricesAsync` after the request: a transport error yields one
   * fallback record per id; a parsed object is walked id by id, appending a
   * record for each readable quote, until a token throws; any other failure,
   * or a null object, yields nothing. No exception leaves the method.
   * `now` stands for `DateTime.Now`.
   */
  method GetCryptoPrices(cryptoIds: seq<string>, response: Response, now: int)
    returns (cryptoList: seq<CryptoFields>)
    ensures cryptoList == PricesFor(cryptoIds, response, now)
  {
    cryptoList := [];
    match response {
      case TransportError =>
        for i := 0 to |cryptoIds|
          invariant cryptoList == seq(i, k requires 0 <= k < i => ErrorRecord(cryptoIds[k]))
        {
          cryptoList := cryptoList + [ErrorRecord(cryptoIds[i])];
        }
      case RequestFailed =>
      case Parsed(data) =>
        if data.Some? {
          var d := data.value;
          var i := 0;
          while i < |cryptoIds|
            invariant 0 <= i <= |cryptoIds|
            invariant Collect(cryptoIds[..i], d, now) == Collected(cryptoList, false)
          {
            var cryptoId := cryptoIds[i];
            assert cryptoIds[..i + 1][..i] == cryptoIds[..i];
            if cryptoId in d {
              var cryptoData := d[cryptoId];
              if !cryptoData.NullToken? {
                if Malformed(cryptoData) {
                  CollectAbortSticks(cryptoIds, d, now, i + 1);
                  return;
                }
                cryptoList := cryptoList + [OnlineRecord(cryptoId, cryptoData, now)];
              }
            }
            i := i + 1;
          }
          assert cryptoIds[..i] == cryptoIds;
        }
    }
  }

  /** On a transport error there is one zero-price record per requested id, in order. */
  lemma TransportErrorFallback(cryptoIds: seq<string>, now: int)
    ensures var r := PricesFor(cryptoIds, TransportError, now);
      && |r| == |cryptoIds|
      && forall i :: 0 <= i < |r| ==>
           && r[i].symbol == UpperAll(cryptoIds[i])
           && r[i].name == GetCryptoName(cryptoIds[i])
           && r[i].price == 0.0 && r[i].change24h == 0.0 && r[i].marketCap == 0.0
           && r[i].status == ConnectionError
  {
  }

  /** `e` is the record `OnlineRecord` builds from the data of some readable requested id. */
  ghost predicate BuiltFrom(e: CryptoFields, ids: seq<string>, data: map<string, CoinData>, now: int)
  {
    exists j :: 0 <= j < |ids| && Readable(data, ids[j]) && e == OnlineRecord(ids[j], data[ids[j]], now)
  }

  /** The reference list holds no more records than ids, each built by `OnlineRecord` from a readable requested id. */
  lemma {:induction false} PresentShape(ids: seq<string>, data: map<string, CoinData>, now: int)
    ensures |Present(ids, data, now)| <= |ids|
    ensures forall k :: 0 <= k < |Present(ids, data, now)| ==>
              BuiltFrom(Present(ids, data, now)[k], ids, data, now)
  {
    PresentLength(ids, data, now);
    forall k | 0 <= k < |Present(ids, data, now)|
      ensures BuiltFrom(Present(ids, data, now)[k], ids, data, now)
    {
      PresentElement(ids, data, now, k);
    }
  }

  lemma {:induction false} PresentLength(ids: seq<string>, data: map<string, CoinData>, now: int)
    ensures |Present(ids, data, now)| <= |ids|
    decreases |ids|
  {
    if ids != [] {
      PresentLength(ids[1..], data, now);
    }
  }

  lemma {:induction false} PresentElement(ids: seq<string>, data: map<string, CoinData>, now: int, k: nat)
    requires k < |Present(ids, data, now)|
    ensures BuiltFrom(Present(ids, data, now)[k], ids, data, now)
    decreases |ids|
  {
    var head := if Readable(data, ids[0]) then [OnlineRecord(ids[0], data[ids[0]], now)] else [];
    var tail := Present(ids[1..], data, now);
    assert Present(ids, data, now) == head + tail;
    if k < |head| {
      assert Readable(data, ids[0]) && Present(ids, data, now)[k] == OnlineRecord(ids[0], data[ids[0]], now);
    } else {
      PresentElement(ids[1..], data, now, k - |head|);
      var j :| 0 <= j < |ids[1..]| && Readable(data, ids[1..][j]) &&
        tail[k - |head|] == OnlineRecord(ids[1..][j], data[ids[1..][j]], now);
      assert ids[1..][j] == ids[j + 1];
      assert Readable(data, ids[j + 1]) && Present(ids, data, now)[k] == OnlineRecord(ids[j + 1], data[ids[j + 1]], now);
    }
  }

  /**
   * For parsed data: no more records than requested ids, each with the
   * upper-cased id as symbol and status online, in request order; exactly
   * the reference list when no id's data throws, and the reference list of
   * the ids before the first throwing one otherwise.
   */
  lemma ParsedResultShape(cryptoIds: seq<string>, data: map<string, CoinData>, now: int)
    ensures var r := PricesFor(cryptoIds, Parsed(Some(data)), now);
      && r <= Present(cryptoIds, data, now)
      && |r| <= |cryptoIds|
      && ((forall j :: 0 <= j < |cryptoIds| ==> !Throws(data, cryptoIds[j])) ==> r == Present(cryptoIds, data, now))
      && (forall j :: 0 <= j < |cryptoIds| && Throws(data, cryptoIds[j]) && (forall i :: 0 <= i < j ==> !Throws(data, cryptoIds[i])) ==>
            r == Present(cryptoIds[..j], data, now))
      && forall k :: 0 <= k < |r| ==>
           r[k].status == Online && exists j :: 0 <= j < |cryptoIds| && r[k].symbol == UpperAll(cryptoIds[j])
  {
    CollectIsPresentPrefix(cryptoIds, data, now);
    PresentShape(cryptoIds, data, now);
    var r := PricesFor(cryptoIds, Parsed(Some(data)), now);
    var p := Present(cryptoIds, data, now);
    forall k | 0 <= k < |r|
      ensures r[k].status == Online && exists j :: 0 <= j < |cryptoIds| && r[k].symbol == UpperAll(cryptoIds[j])
    {
      assert r[k] == p[k];
      var j :| 0 <= j < |cryptoIds| && Readable(data, cryptoIds[j]) && p[k] == OnlineRecord(cryptoIds[j], data[cryptoIds[j]], now);
      assert r[k].symbol == UpperAll(cryptoIds[j]);
    }
  }

  /** Polling a single id yields nothing or one record whose symbol is that id upper-cased. */
  lemma SingleIdResult(cryptoId: string, response: Response, now: int)
    ensures var r := PricesFor([cryptoId], response, now);
      |r| <= 1 && (|r| == 1 ==> r[0].symbol == UpperAll(cryptoId))
  {
    if response.Parsed? && response.data.Some? {
      ParsedResultShape([cryptoId], response.data.value, now);
    }
  }
}
