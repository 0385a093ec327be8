/** The two browser facilities the mint page reads its arrival parameters
    through: `window.location.search` of a URL and `URLSearchParams.get`. */
module UrlQuery {
  import opened Wrappers
  import opened Strings

  /** `location.search` of `url`: the query between the first `?` and the
      fragment, with its `?`; empty when there is no query or it is empty. */
  function SearchOf(url: string): (search: string)
    ensures search == [] || (search[0] == '?' && |search| >= 2 && '#' !in search)
  {
    var beforeHash := match IndexOf(url, "#") case Some(h) => url[..h] case None => url;
    assert '#' !in beforeHash by {
      if '#' in beforeHash {
        var k :| 0 <= k < |beforeHash| && beforeHash[k] == '#';
        OccursAtChar(url, '#', k);
      }
    }
    match IndexOf(beforeHash, "?")
    case None => ""
    case Some(q) => if q + 1 == |beforeHash| then "" else beforeHash[q..]
  }

  /** `s.split(sep)`: the pieces between separators, empty pieces included. */
  function Split(s: string, sep: char): (parts: seq<string>)
    ensures |parts| >= 1
    ensures forall i :: 0 <= i < |parts| ==> sep !in parts[i]
    ensures Join(parts, sep) == s
  {
    if s == [] then [""]
    else
      var rest := Split(s[1..], sep);
      if s[0] == sep then
        assert Join([""] + rest, sep) == [sep] + Join(rest, sep);
        [""] + rest
      else
        var parts := [[s[0]] + rest[0]] + rest[1..];
        JoinHead(rest, s[0], sep);
        parts
  }

  /** Pieces glued back with `sep` between them (the inverse of `Split`). */
  function Join(parts: seq<string>, sep: char): string
    requires |parts| >= 1
  {
    if |parts| == 1 then parts[0] else parts[0] + [sep] + Join(parts[1..], sep)
  }

  lemma JoinHead(parts: seq<string>, c: char, sep: char)
    requires |parts| >= 1
    ensures Join([[c] + parts[0]] + parts[1..], sep) == [c] + Join(parts, sep)
  {
    var ps := [[c] + parts[0]] + parts[1..];
    assert ps[1..] == parts[1..];
  }

  /** Splitting at a separator that `a` lacks yields `a` first, then the pieces of `b`. */
  lemma {:induction false} SplitAfter(a: string, sep: char, b: string)
    requires sep !in a
    ensures Split(a + [sep] + b, sep) == [a] + Split(b, sep)
    decreases |a|
  {
    if a == [] {
      assert a + [sep] + b == [sep] + b;
      assert ([sep] + b)[1..] == b;
    } else {
      assert (a + [sep] + b)[1..] == a[1..] + [sep] + b;
      SplitAfter(a[1..], sep, b);
      assert [a[0]] + a[1..] == a;
    }
  }

  /** A string without the separator is a single piece. */
  lemma {:induction false} SplitWhole(a: string, sep: char)
    requires sep !in a
    ensures Split(a, sep) == [a]
    decreases |a|
  {
    if a != [] {
      SplitWhole(a[1..], sep);
      assert [a[0]] + a[1..] == a;
    }
  }

  /** The form-urlencoded decoding of a name or value: `+` stands for a space.
      (Percent escapes are not decoded in this model.) */
  function Decode(s: string): (d: string)
    ensures |d| == |s|
    ensures forall i :: 0 <= i < |s| ==> d[i] == if s[i] == '+' then ' ' else s[i]
  {
    seq(|s|, i requires 0 <= i < |s| => if s[i] == '+' then ' ' else s[i])
  }

  /** One `name=value` piece, split at its first `=`; a piece without `=` is a
      name with an empty value. A name therefore never holds `=`, and the
      value keeps every later `=`. */
  function ParsePair(piece: string): (pair: (string, string))
    ensures '=' !in piece ==> pair == (Decode(piece), "")
    ensures '=' in piece ==> |pair.0| + 1 + |pair.1| == |piece|
    ensures '=' in piece ==>
      exists i :: 0 <= i < |piece| && piece[i] == '=' && '=' !in piece[..i] &&
                  pair == (Decode(piece[..i]), Decode(piece[i + 1..]))
    ensures '=' !in pair.0
  {
    match IndexOf(piece, "=")
    case None =>
      forall k | 0 <= k < |piece| ensures piece[k] != '=' {
        OccursAtChar(piece, '=', k);
      }
      (Decode(piece), "")
    case Some(i) =>
      OccursAtChar(piece, '=', i);
      forall k | 0 <= k < i ensures piece[k] != '=' {
        OccursAtChar(piece, '=', k);
      }
      assert '=' !in piece[..i];
      (Decode(piece[..i]), Decode(piece[i + 1..]))
  }

  /** The name/value list of the pieces, in order, skipping empty pieces. */
  function ParsePieces(pieces: seq<string>): (pairs: seq<(string, string)>)
    ensures |pairs| <= |pieces|
    ensures forall i :: 0 <= i < |pairs| ==> '=' !in pairs[i].0
    ensures (forall i :: 0 <= i < |pieces| ==> pieces[i] != "") ==>
      |pairs| == |pieces| && forall i :: 0 <= i < |pieces| ==> pairs[i] == ParsePair(pieces[i])
  {
    if pieces == [] then []
    else (if pieces[0] == "" then [] else [ParsePair(pieces[0])]) + ParsePieces(pieces[1..])
  }

  /** Parsing distributes over concatenated piece lists. */
  lemma {:induction false} ParsePiecesAppend(a: seq<string>, b: seq<string>)
    ensures ParsePieces(a + b) == ParsePieces(a) + ParsePieces(b)
    decreases |a|
  {
    if a == [] {
      assert a + b == b;
    } else {
      assert (a + b)[0] == a[0];
      assert (a + b)[1..] == a[1..] + b;
      ParsePiecesAppend(a[1..], b);
    }
  }

  /** An empty piece anywhere contributes nothing. */
  lemma ParsePiecesSkipsEmpty(a: seq<string>, b: seq<string>)
    ensures ParsePieces(a + [""] + b) == ParsePieces(a + b)
  {
    ParsePiecesAppend(a + [""], b);
    ParsePiecesAppend(a, [""]);
    ParsePiecesAppend(a, b);
    assert [""][1..] == [];
  }

  /** `new URLSearchParams(search)`: a leading `?` is dropped, then the text is
      split at `&` into pieces, each parsed as a pair. */
  function Params(search: string): (pairs: seq<(string, string)>)
    ensures forall i :: 0 <= i < |pairs| ==> '=' !in pairs[i].0
    ensures search == [] || search == ['?'] ==> pairs == []
    ensures '&' !in search ==> |pairs| <= 1
  {
    var body := if |search| > 0 && search[0] == '?' then search[1..] else search;
    assert '&' !in search ==> Split(body, '&') == [body] by {
      if '&' !in search {
        SplitWhole(body, '&');
      }
    }
    assert body == [] ==> ParsePieces(Split(body, '&')) == [] by {
      assert [""][1..] == [];
    }
    ParsePieces(Split(body, '&'))
  }

  /** A search holding one piece gives no pair when the piece is empty and
      otherwise exactly that piece's pair. */
  lemma ParamsOnePiece(a: string)
    requires '&' !in a
    ensures Params(['?'] + a) == if a == "" then [] else [ParsePair(a)]
  {
    assert (['?'] + a)[1..] == a;
    SplitWhole(a, '&');
    assert [a][1..] == [];
  }

  /** The pairs of `?a&b` are the pairs of `?a` followed by those of `?b`:
      together with `ParamsOnePiece` this gives the pairs of any search. */
  lemma ParamsCons(a: string, b: string)
    requires '&' !in a
    ensures Params(['?'] + a + ['&'] + b) == Params(['?'] + a) + Params(['?'] + b)
  {
    assert (['?'] + a + ['&'] + b)[1..] == a + ['&'] + b;
    assert (['?'] + a)[1..] == a;
    assert (['?'] + b)[1..] == b;
    SplitAfter(a, '&', b);
    SplitWhole(a, '&');
    ParsePiecesAppend([a], Split(b, '&'));
  }

  /** The `name=value` text of one pair. */
  function Piece(pair: (string, string)): string {
    pair.0 + "=" + pair.1
  }

  /** The query text of a list of pairs: their pieces joined by `&`. */
  function Query(pairs: seq<(string, string)>): string
    decreases |pairs|
  {
    if pairs == [] then ""
    else if |pairs| == 1 then Piece(pairs[0])
    else Piece(pairs[0]) + ['&'] + Query(pairs[1..])
  }

  /** The characters of every name and value are unreserved. */
  predicate PlainPairs(pairs: seq<(string, string)>) {
    forall i :: 0 <= i < |pairs| ==> AllUnreserved(pairs[i].0) && AllUnreserved(pairs[i].1)
  }

  /** Splitting and parsing the query text of plain pairs gives the pairs back. */
  lemma {:induction false} ParseQuery(pairs: seq<(string, string)>)
    requires |pairs| >= 1 && PlainPairs(pairs)
    ensures ParsePieces(Split(Query(pairs), '&')) == pairs
    decreases |pairs|
  {
    var first := Piece(pairs[0]);
    assert '&' !in first by {
      assert AllUnreserved(pairs[0].0) && AllUnreserved(pairs[0].1);
    }
    ParseNamedPair(pairs[0].0, pairs[0].1);
    assert first[|pairs[0].0|] == '=';
    if |pairs| == 1 {
      SplitWhole(first, '&');
      assert [first][1..] == [];
    } else {
      var rest := pairs[1..];
      assert PlainPairs(rest) by {
        forall i | 0 <= i < |rest| ensures AllUnreserved(rest[i].0) && AllUnreserved(rest[i].1) {
          assert rest[i] == pairs[i + 1];
        }
      }
      ParseQuery(rest);
      SplitAfter(first, '&', Query(rest));
      var pieces := [first] + Split(Query(rest), '&');
      assert pieces[1..] == Split(Query(rest), '&');
      assert [pairs[0]] + rest == pairs;
    }
  }

  /** `URLSearchParams` of `?` and the query text of plain pairs is exactly
      those pairs, in order: parsing inverts writing a query. */
  lemma ParamsRoundTrip(pairs: seq<(string, string)>)
    requires PlainPairs(pairs)
    ensures Params(['?'] + Query(pairs)) == pairs
  {
    var search := ['?'] + Query(pairs);
    assert search[1..] == Query(pairs);
    if pairs != [] {
      ParseQuery(pairs);
    }
  }

  /** The index of the first pair named `name`. */
  function FindName(params: seq<(string, string)>, name: string): (r: Option<nat>)
    ensures r.Some? ==> r.value < |params| && params[r.value].0 == name
    ensures r.Some? ==> forall j :: 0 <= j < r.value ==> params[j].0 != name
    ensures r.None? ==> forall i :: 0 <= i < |params| ==> params[i].0 != name
  {
    if params == [] then None
    else if params[0].0 == name then Some(0)
    else
      match FindName(params[1..], name)
      case None => None
      case Some(i) => Some(i + 1)
  }

  /** `params.get(name)`: the value of the FIRST pair with that name. */
  function Get(params: seq<(string, string)>, name: string): (r: Option<string>)
    ensures r.None? <==> forall i :: 0 <= i < |params| ==> params[i].0 != name
    ensures r.Some? ==> exists i :: 0 <= i < |params| && params[i] == (name, r.value) &&
                                (forall j :: 0 <= j < i ==> params[j].0 != name)
  {
    match FindName(params, name)
    case None => None
    case Some(i) => Some(params[i].1)
  }

  /** Characters RFC 3986 calls unreserved: they pass through URL parsing and
      form decoding untouched. */
  predicate Unreserved(c: char) {
    ('A' <= c <= 'Z') || ('a' <= c <= 'z') || ('0' <= c <= '9') || c == '-' || c == '.' || c == '_' || c == '~'
  }

  predicate AllUnreserved(s: string) {
    forall i :: 0 <= i < |s| ==> Unreserved(s[i])
  }

  lemma DecodeUnreserved(s: string)
    requires AllUnreserved(s)
    ensures Decode(s) == s
  {
  }

  /** A `name=value` piece whose name has no `=` parses to that name and value. */
  lemma ParseNamedPair(name: string, value: string)
    requires AllUnreserved(name) && AllUnreserved(value)
    ensures ParsePair(name + "=" + value) == (name, value)
  {
    assert '=' !in name;
    IndexOfFirstChar(name, '=', value);
    var piece := name + "=" + value;
    assert piece[..|name|] == name;
    assert piece[|name| + 1..] == value;
    DecodeUnreserved(name);
    DecodeUnreserved(value);
  }
}
