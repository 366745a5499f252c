/**
 * Verification of Telegram Mini App launch data ("init data"), as `auth.py`
 * does it: the query string is split into fields, a dict keeps the last value
 * of every key, `hash` is taken out, the remaining fields are rendered as the
 * sorted data-check string, and the given hash is compared with
 * hex(HMAC-SHA256(HMAC-SHA256("WebAppData", bot token), data-check string)).
 */
module InitData {
  import opened Wrappers
  import opened Strings

  newtype byte = x: int | 0 <= x < 256

  /**
   * The library routines the verification calls and this model does not
   * open up: percent-decoding of one query component (`urllib.parse.unquote`
   * with UTF-8 and `errors='replace'`), `str.encode()` (UTF-8), and
   * `hmac.new(key, msg, hashlib.sha256).digest()`.
   */
  datatype Library = Library(
    unquote: string -> string,
    encode: string -> seq<byte>,
    hmacSha256: (seq<byte>, seq<byte>) -> seq<byte>)

  /** HMAC-SHA256 yields a 32-byte tag, whatever the key and the message. */
  ghost predicate DigestSized(lib: Library)
  {
    forall key, msg :: |lib.hmacSha256(key, msg)| == 32
  }

  type Pair = (string, string)

  /** The outcome of `validate_init_data`: the fields, `None`, or the `TypeError` of `compare_digest`. */
  datatype Verdict = Accepted(fields: map<string, string>) | Rejected | Raised

  // ----- urllib.parse.parse_qsl(qs, keep_blank_values=True) -----

  /** `x.replace('+', ' ')`. */
  function PlusToSpace(x: string): (r: string)
    ensures |r| == |x|
    ensures forall i :: 0 <= i < |x| ==> r[i] == (if x[i] == '+' then ' ' else x[i])
  {
    seq(|x|, i requires 0 <= i < |x| => if x[i] == '+' then ' ' else x[i])
  }

  /** One query component decoded: `+` becomes a space, then percent escapes are undone. */
  function FormDecode(x: string, lib: Library): (r: string)
    ensures '+' !in x ==> r == lib.unquote(x)
  {
    assert '+' !in x ==> PlusToSpace(x) == x by {
      if '+' !in x {
        assert forall i :: 0 <= i < |x| ==> x[i] != '+';
      }
    }
    lib.unquote(PlusToSpace(x))
  }

  /** A `+` decodes as a space: with `FormDecode`'s contract, unquoting follows the replacement. */
  lemma PlusDecodesAsSpace(x: string, lib: Library)
    ensures FormDecode(x, lib) == FormDecode(PlusToSpace(x), lib)
  {
    var y := PlusToSpace(x);
    assert '+' !in y by {
      assert forall i :: 0 <= i < |y| ==> y[i] != '+';
    }
    assert PlusToSpace(y) == y;
  }

  /** `field.split('=', 1)`, with a missing value taken as blank (`keep_blank_values`). */
  function SplitField(field: string): (nv: Pair)
    ensures '=' !in nv.0
    ensures '=' in field ==> field == nv.0 + "=" + nv.1
    ensures '=' !in field ==> nv == (field, "")
  {
    if |field| == 0 then ("", "")
    else if field[0] == '=' then ("", field[1..])
    else
      var nv := SplitField(field[1..]);
      assert field == [field[0]] + field[1..];
      ([field[0]] + nv.0, nv.1)
  }

  /** The first `=` splits a field into name and value. */
  lemma SplitFieldAt(field: string, i: nat)
    requires i < |field| && field[i] == '=' && '=' !in field[..i]
    ensures SplitField(field) == (field[..i], field[i + 1..])
  {
    var nv := SplitField(field);
    assert field == nv.0 + "=" + nv.1;
    assert forall j :: 0 <= j < i ==> field[j] != '=' by {
      forall j | 0 <= j < i
        ensures field[j] != '='
      {
        assert field[..i][j] == field[j];
      }
    }
    assert forall j :: 0 <= j < |nv.0| ==> field[j] != '=' by {
      forall j | 0 <= j < |nv.0|
        ensures field[j] != '='
      {
        assert field[j] == nv.0[j];
      }
    }
    assert field[|nv.0|] == '=';
    assert nv.0 == field[..i];
    assert nv.1 == field[i + 1..];
  }

  /** One field decoded: the name before the first `=` and the value after it, or a blank value. */
  function DecodeField(field: string, lib: Library): (p: Pair)
    ensures '=' !in field ==> p == (FormDecode(field, lib), FormDecode("", lib))
    ensures forall i :: 0 <= i < |field| && field[i] == '=' && '=' !in field[..i] ==>
              p == (FormDecode(field[..i], lib), FormDecode(field[i + 1..], lib))
  {
    assert forall i :: 0 <= i < |field| && field[i] == '=' && '=' !in field[..i] ==>
             SplitField(field) == (field[..i], field[i + 1..]) by {
      forall i | 0 <= i < |field| && field[i] == '=' && '=' !in field[..i] {
        SplitFieldAt(field, i);
      }
    }
    var nv := SplitField(field);
    (FormDecode(nv.0, lib), FormDecode(nv.1, lib))
  }

  /** The pairs of the non-empty pieces, in order; empty pieces are skipped. */
  function DecodeFields(pieces: seq<string>, lib: Library): (ps: seq<Pair>)
    ensures |ps| <= |pieces|
    ensures (forall i :: 0 <= i < |pieces| ==> pieces[i] != "") ==>
              |ps| == |pieces| && forall i :: 0 <= i < |ps| ==> ps[i] == DecodeField(pieces[i], lib)
  {
    if |pieces| == 0 then []
    else
      var rest := DecodeFields(pieces[1..], lib);
      if pieces[0] == "" then rest else [DecodeField(pieces[0], lib)] + rest
  }

  /** An empty piece, such as the one `a=1&&b=2` or a trailing `&` produces, contributes no pair. */
  lemma {:induction false} EmptyPieceSkipped(a: seq<string>, b: seq<string>, lib: Library)
    ensures DecodeFields(a + [""] + b, lib) == DecodeFields(a + b, lib)
  {
    var with, without := a + [""] + b, a + b;
    if |a| == 0 {
      assert with[0] == "" && with[1..] == b;
      assert without == b;
    } else {
      assert with[0] == a[0] && with[1..] == a[1..] + [""] + b;
      assert without[0] == a[0] && without[1..] == a[1..] + b;
      EmptyPieceSkipped(a[1..], b, lib);
    }
  }

  /** `parse_qsl(qs, keep_blank_values=True)`: the decoded pairs in order, duplicates kept. */
  function ParseQsl(qs: string, lib: Library): (ps: seq<Pair>)
    ensures qs == "" ==> ps == []
    ensures qs != "" && '&' !in qs ==> ps == [DecodeField(qs, lib)]
  {
    if qs == "" then []
    else if '&' !in qs then SplitJoin([qs], '&'); DecodeFields(Split(qs, '&'), lib)
    else DecodeFields(Split(qs, '&'), lib)
  }

  /**
   * A non-empty query string made of `&`-free fields parses as the decoding of
   * those fields, empty ones skipped; when none is empty, field by field.
   * Every non-empty query is such a join: its own `Split` (see `JoinSplit`).
   */
  lemma ParseJoined(fields: seq<string>, lib: Library)
    requires |fields| >= 1 && Join(fields, '&') != ""
    requires forall i :: 0 <= i < |fields| ==> '&' !in fields[i]
    ensures ParseQsl(Join(fields, '&'), lib) == DecodeFields(fields, lib)
    ensures (forall i :: 0 <= i < |fields| ==> fields[i] != "") ==>
              ParseQsl(Join(fields, '&'), lib) == seq(|fields|, i requires 0 <= i < |fields| => DecodeField(fields[i], lib))
  {
    SplitJoin(fields, '&');
  }

  // ----- dict(pairs) -----

  /** `dict(ps)`: every key of the list, each bound to the value of its last occurrence. */
  function ToMap(ps: seq<Pair>): (m: map<string, string>)
    ensures forall k :: k in m <==> exists i :: 0 <= i < |ps| && ps[i].0 == k
  {
    if |ps| == 0 then map[]
    else
      var init := ToMap(ps[..|ps| - 1]);
      assert forall i :: 0 <= i < |ps| - 1 ==> ps[..|ps| - 1][i] == ps[i];
      init[ps[|ps| - 1].0 := ps[|ps| - 1].1]
  }

  /** A repeated key keeps the value of its last occurrence. */
  lemma {:induction false} LastOccurrenceWins(ps: seq<Pair>, i: nat)
    requires i < |ps|
    requires forall j :: i < j < |ps| ==> ps[j].0 != ps[i].0
    ensures ps[i].0 in ToMap(ps) && ToMap(ps)[ps[i].0] == ps[i].1
  {
    if i < |ps| - 1 {
      var init := ps[..|ps| - 1];
      assert init[i] == ps[i];
      forall j | i < j < |init|
        ensures init[j].0 != init[i].0
      {
        assert init[j] == ps[j];
      }
      LastOccurrenceWins(init, i);
    }
  }

  /** The parsed fields of an init-data string as the dict `pairs` holds them before the `pop`. */
  function Parsed(initData: string, lib: Library): (m: map<string, string>)
    ensures initData == "" ==> m == map[]
    ensures initData != "" && '&' !in initData ==>
              var p := DecodeField(initData, lib); m == map[p.0 := p.1]
  {
    ToMap(ParseQsl(initData, lib))
  }

  // ----- sorted(pairs.keys()) and the data-check string -----

  /** The keys of `dict(ps)` other than `hash`, in ascending order. */
  function SortedKeys(ps: seq<Pair>): (ks: seq<string>)
    ensures Ascending(ks)
    ensures forall k :: k in ks <==> k in ToMap(ps) && k != "hash"
  {
    if |ps| == 0 then []
    else
      var init := ps[..|ps| - 1];
      assert forall i :: 0 <= i < |ps| - 1 ==> init[i] == ps[i];
      var ks := SortedKeys(init);
      var k := ps[|ps| - 1].0;
      if k == "hash" then ks else Insert(k, ks)
  }

  /** The `k=v` line of every key in `ks`, in that order. */
  function Lines(m: map<string, string>, ks: seq<string>): (ls: seq<string>)
    requires forall i :: 0 <= i < |ks| ==> ks[i] in m
    ensures |ls| == |ks|
    ensures forall i :: 0 <= i < |ks| ==> ls[i] == ks[i] + "=" + m[ks[i]]
  {
    seq(|ks|, i requires 0 <= i < |ks| => ks[i] + "=" + m[ks[i]])
  }

  /** The data-check string: the lines joined by `\n`. */
  function DataCheckString(m: map<string, string>, ks: seq<string>): (dcs: string)
    requires forall i :: 0 <= i < |ks| ==> ks[i] in m
    ensures ks == [] ==> dcs == ""
  {
    Join(Lines(m, ks), '\n')
  }

  /** When no key or value holds a newline, the data-check string splits back into its lines. */
  lemma DataCheckLines(m: map<string, string>, ks: seq<string>)
    requires |ks| >= 1
    requires forall i :: 0 <= i < |ks| ==> ks[i] in m && '\n' !in ks[i] && '\n' !in m[ks[i]]
    ensures Split(DataCheckString(m, ks), '\n') == Lines(m, ks)
  {
    var ls := Lines(m, ks);
    forall i | 0 <= i < |ls|
      ensures '\n' !in ls[i]
    {
      assert ls[i] == ks[i] + "=" + m[ks[i]];
    }
    SplitJoin(ls, '\n');
  }

  // ----- the signature -----

  /** `b"WebAppData"`. */
  const WEB_APP_DATA: seq<byte> := [0x57, 0x65, 0x62, 0x41, 0x70, 0x70, 0x44, 0x61, 0x74, 0x61]

  lemma WebAppDataBytes()
    ensures |WEB_APP_DATA| == |"WebAppData"|
    ensures forall i :: 0 <= i < |WEB_APP_DATA| ==> WEB_APP_DATA[i] as int == "WebAppData"[i] as int
  {
  }

  /** A lowercase hex digit. */
  predicate IsHexDigit(c: char)
  {
    '0' <= c <= '9' || 'a' <= c <= 'f'
  }

  function HexDigit(n: nat): (c: char)
    requires n < 16
    ensures IsHexDigit(c)
  {
    if n < 10 then ('0' as int + n) as char else ('a' as int + n - 10) as char
  }

  function HexValue(c: char): (v: nat)
    requires IsHexDigit(c)
    ensures v < 16
  {
    if '0' <= c <= '9' then c as int - '0' as int else c as int - 'a' as int + 10
  }

  /** `.hexdigest()`: two lowercase hex digits per byte, high nibble first. */
  function Hex(bs: seq<byte>): (h: string)
    ensures |h| == 2 * |bs|
    ensures forall i :: 0 <= i < |h| ==> IsHexDigit(h[i])
  {
    if |bs| == 0 then ""
    else [HexDigit(bs[0] as int / 16), HexDigit(bs[0] as int % 16)] + Hex(bs[1..])
  }

  /** The bytes a lowercase hex string denotes. */
  function Unhex(h: string): (bs: seq<byte>)
    requires |h| % 2 == 0
    requires forall i :: 0 <= i < |h| ==> IsHexDigit(h[i])
    ensures |bs| == |h| / 2
  {
    if |h| == 0 then [] else [(HexValue(h[0]) * 16 + HexValue(h[1])) as byte] + Unhex(h[2..])
  }

  /** Hex rendering is injective: the digest can be read back from its hex form. */
  lemma {:induction false} UnhexHex(bs: seq<byte>)
    ensures Unhex(Hex(bs)) == bs
  {
    if |bs| > 0 {
      var b := bs[0] as int;
      var h := Hex(bs);
      assert h[2..] == Hex(bs[1..]);
      UnhexHex(bs[1..]);
      assert HexValue(h[0]) * 16 + HexValue(h[1]) == b;
      assert bs == [bs[0]] + bs[1..];
    }
  }

  lemma HexIsAscii(bs: seq<byte>)
    ensures IsAscii(Hex(bs))
  {
    var h := Hex(bs);
    forall i | 0 <= i < |h|
      ensures h[i] as int < 128
    {
      assert IsHexDigit(h[i]);
    }
  }

  /** The hash Telegram attaches to a data-check string signed with this bot token. */
  function Signature(token: string, dcs: string, lib: Library): (h: string)
    ensures IsAscii(h) && |h| % 2 == 0 && forall i :: 0 <= i < |h| ==> IsHexDigit(h[i])
    ensures Unhex(h) == lib.hmacSha256(lib.hmacSha256(WEB_APP_DATA, lib.encode(token)), lib.encode(dcs))
    ensures DigestSized(lib) ==> |h| == 64
  {
    var secretKey := lib.hmacSha256(WEB_APP_DATA, lib.encode(token));
    var tag := lib.hmacSha256(secretKey, lib.encode(dcs));
    HexIsAscii(tag);
    UnhexHex(tag);
    Hex(tag)
  }

  /**
   * `hmac.compare_digest` on two `str`: `None` for the `TypeError` it raises
   * when either holds a non-ASCII character, otherwise whether they are equal.
   */
  function CompareDigest(a: string, b: string): (r: Option<bool>)
    ensures r == None <==> !IsAscii(a) || !IsAscii(b)
    ensures r == Some(true) <==> IsAscii(a) && a == b
  {
    if IsAscii(a) && IsAscii(b) then Some(a == b) else None
  }

  /** `pairs.pop('hash', None) or ""`: the given hash, blank when absent. */
  function GivenHash(m: map<string, string>): (h: string)
    ensures "hash" in m ==> h == m["hash"]
    ensures "hash" !in m ==> h == ""
  {
    if "hash" in m then m["hash"] else ""
  }

  /** `validate_init_data(init_data, bot_token)`. */
  function Validate(initData: string, token: string, lib: Library): (v: Verdict)
    ensures initData == "" ==> v == Rejected
    ensures v.Accepted? ==> v.fields == Parsed(initData, lib) - {"hash"} && "hash" !in v.fields
    ensures v.Raised? <==> initData != "" && !IsAscii(GivenHash(Parsed(initData, lib)))
  {
    if initData == "" then Rejected
    else
      var ps := ParseQsl(initData, lib);
      var pairs := ToMap(ps);
      var given := GivenHash(pairs);
      var rest := pairs - {"hash"};
      var ks := SortedKeys(ps);
      var computed := Signature(token, DataCheckString(rest, ks), lib);
      HexIsAscii(lib.hmacSha256(lib.hmacSha256(WEB_APP_DATA, lib.encode(token)), lib.encode(DataCheckString(rest, ks))));
      match CompareDigest(computed, given)
      case None => Raised
      case Some(equal) => if equal then Accepted(rest) else Rejected
  }

  /**
   * Init data is accepted exactly when it is non-empty and its `hash` field
   * is the signature of the data-check string of the other fields, in
   * ascending key order (any ascending list of those keys gives the same string).
   */
  lemma AcceptedIff(initData: string, token: string, lib: Library, ks: seq<string>)
    requires Ascending(ks)
    requires forall k :: k in ks <==> k in Parsed(initData, lib) && k != "hash"
    ensures && (forall i :: 0 <= i < |ks| ==> ks[i] in Parsed(initData, lib) - {"hash"})
            && (Validate(initData, token, lib).Accepted? <==>
              initData != "" &&
              GivenHash(Parsed(initData, lib)) == Signature(token, DataCheckString(Parsed(initData, lib) - {"hash"}, ks), lib))
  {
    var ps := ParseQsl(initData, lib);
    AscendingUnique(SortedKeys(ps), ks);
    var rest := Parsed(initData, lib) - {"hash"};
    forall i | 0 <= i < |ks|
      ensures ks[i] in rest
    {
      assert ks[i] in ks;
    }
    HexIsAscii(lib.hmacSha256(lib.hmacSha256(WEB_APP_DATA, lib.encode(token)), lib.encode(DataCheckString(rest, ks))));
  }

  /** Init data without a `hash` field is never accepted: "" is not a 64-digit digest. */
  lemma MissingHashRejected(initData: string, token: string, lib: Library)
    requires DigestSized(lib)
    requires "hash" !in Parsed(initData, lib)
    ensures Validate(initData, token, lib) == Rejected
  {
    if initData != "" {
      var ps := ParseQsl(initData, lib);
      var rest := ToMap(ps) - {"hash"};
      var dcs := DataCheckString(rest, SortedKeys(ps));
      var tag := lib.hmacSha256(lib.hmacSha256(WEB_APP_DATA, lib.encode(token)), lib.encode(dcs));
      assert |Hex(tag)| == 64;
    }
  }

  /** When a key repeats, the accepted fields hold the value of its last occurrence. */
  lemma AcceptedKeepsLastValue(initData: string, token: string, lib: Library, i: nat)
    requires Validate(initData, token, lib).Accepted?
    requires var ps := ParseQsl(initData, lib);
      i < |ps| && ps[i].0 != "hash" && forall j :: i < j < |ps| ==> ps[j].0 != ps[i].0
    ensures var ps := ParseQsl(initData, lib);
      Validate(initData, token, lib).fields[ps[i].0] == ps[i].1
  {
    LastOccurrenceWins(ParseQsl(initData, lib), i);
  }
}
