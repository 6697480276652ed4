/** The text pieces of the WireGuard userspace protocol: hexadecimal keys, decimal numbers,
    lines, and the names of the fields. */
module UapiText {

  import opened Wrappers

  type Key = seq<Byte>

  const KEY_LENGTH := 32

  // ---- hexadecimal --------------------------------------------------------------------------

  function HexDigit(n: int): char
    requires 0 <= n < 16
  {
    "0123456789abcdef"[n]
  }

  /** Upper-case digits are read too. */
  function HexValue(c: char): (r: Option<int>)
    ensures r.Some? ==> 0 <= r.value < 16
  {
    if '0' <= c <= '9' then Some(c as int - '0' as int)
    else if 'a' <= c <= 'f' then Some(c as int - 'a' as int + 10)
    else if 'A' <= c <= 'F' then Some(c as int - 'A' as int + 10)
    else None
  }

  lemma HexDigitValue(n: int)
    requires 0 <= n < 16
    ensures HexValue(HexDigit(n)) == Some(n)
  {
    assert "0123456789abcdef"[..10] == "0123456789" && "0123456789abcdef"[10..] == "abcdef";
  }

  function Hex(k: seq<Byte>): string {
    if k == [] then "" else [HexDigit(k[0] / 16), HexDigit(k[0] % 16)] + Hex(k[1..])
  }

  function Unhex(s: string): Option<seq<Byte>> {
    if s == "" then Some([])
    else if |s| == 1 then None
    else
      var hi, lo, rest := HexValue(s[0]), HexValue(s[1]), Unhex(s[2..]);
      if hi.None? || lo.None? || rest.None? then None
      else
        var b: int := 16 * hi.value + lo.value;
        Some([b] + rest.value)
  }

  lemma UnhexByte(b: Byte, rest: string)
    requires Unhex(rest).Some?
    ensures var s := [HexDigit(b / 16), HexDigit(b % 16)] + rest;
            Unhex(s) == Some([b] + Unhex(rest).value) && HexDigit(b / 16) != '\n' && HexDigit(b % 16) != '\n'
  {
    HexDigitValue(b / 16);
    HexDigitValue(b % 16);
    var s := [HexDigit(b / 16), HexDigit(b % 16)] + rest;
    assert s[2..] == rest;
  }

  lemma {:induction false} HexRoundTrip(k: seq<Byte>)
    ensures Unhex(Hex(k)) == Some(k) && |Hex(k)| == 2 * |k| && '\n' !in Hex(k)
  {
    if k != [] {
      var rest := Hex(k[1..]);
      HexRoundTrip(k[1..]);
      UnhexByte(k[0], rest);
      assert k == [k[0]] + k[1..];
    }
  }

  function ParseKey(s: string): Option<Key> {
    var raw := Unhex(s);
    if raw.Some? && |raw.value| == KEY_LENGTH then raw else None
  }

  // ---- decimal ------------------------------------------------------------------------------

  const MIN_INT := -0x8000_0000_0000_0000
  const MAX_INT := 0x7fff_ffff_ffff_ffff

  type Int = n: int | MIN_INT <= n <= MAX_INT

  function Digit(n: int): char
    requires 0 <= n < 10
  {
    '0' + (n as char)
  }

  function Digits(n: nat): string {
    if n < 10 then [Digit(n)] else Digits(n / 10) + [Digit(n % 10)]
  }

  function Decimal(n: int): string {
    if n < 0 then "-" + Digits(-n) else Digits(n)
  }

  function ParseDigits(s: string): Option<nat> {
    if s == "" then Some(0)
    else
      var before, c := ParseDigits(s[..|s| - 1]), s[|s| - 1];
      if before.None? || !('0' <= c <= '9') then None
      else Some(10 * before.value + (c as int - '0' as int))
  }

  function InRange(n: int): Option<int> {
    if MIN_INT <= n <= MAX_INT then Some(n) else None
  }

  /** A signed decimal that fits 64 bits. */
  function ParseInt(s: string): Option<int> {
    var signed := s != "" && (s[0] == '-' || s[0] == '+');
    var body := if signed then s[1..] else s;
    var n := ParseDigits(body);
    if body == "" || n.None? then None
    else
      var v: int := n.value;
      InRange(if signed && s[0] == '-' then -v else v)
  }

  lemma {:induction false} DigitsRoundTrip(n: nat)
    ensures ParseDigits(Digits(n)) == Some(n) && Digits(n) != ""
    ensures AllDigits(Digits(n))
  {
    if n >= 10 {
      DigitsRoundTrip(n / 10);
      var d := Digits(n / 10);
      assert (d + [Digit(n % 10)])[..|d|] == d;
    } else {
      assert [Digit(n)][..0] == "";
    }
  }

  predicate AllDigits(s: string) {
    forall c <- s :: '0' <= c <= '9'
  }

  lemma ParseSigned(d: string, m: int)
    requires d != "" && AllDigits(d) && ParseDigits(d).Some? && ParseDigits(d).value == m
    ensures ParseInt(d) == InRange(m) && ParseInt("-" + d) == InRange(-m)
    ensures '\n' !in d && '\n' !in "-" + d
  {
    assert ("-" + d)[0] == '-' && ("-" + d)[1..] == d;
    assert d[0] in d;
  }

  lemma DecimalRoundTrip(n: int)
    requires MIN_INT <= n <= MAX_INT
    ensures ParseInt(Decimal(n)) == Some(n) && '\n' !in Decimal(n)
  {
    var m := if n < 0 then -n else n;
    DigitsRoundTrip(m);
    ParseSigned(Digits(m), m);
  }

  // ---- lines --------------------------------------------------------------------------------

  function Unlines(lines: seq<string>): string {
    if lines == [] then "" else Unlines(lines[..|lines| - 1]) + lines[|lines| - 1] + "\n"
  }

  /** The pieces between newlines, the last one possibly empty. */
  function Split(text: string): (pieces: seq<string>)
    ensures pieces != []
  {
    if text == "" then [""]
    else
      var before, c := Split(text[..|text| - 1]), text[|text| - 1];
      if c == '\n' then before + [""] else before[|before| - 1 := before[|before| - 1] + [c]]
  }

  lemma {:induction false} SplitWord(text: string, word: string)
    requires '\n' !in word && Split(text)[|Split(text)| - 1] == ""
    ensures Split(text + word) == Split(text)[|Split(text)| - 1 := word]
  {
    if word == "" {
      assert text + word == text;
    } else {
      var init := word[..|word| - 1];
      SplitWord(text, init);
      assert (text + word)[..|text + word| - 1] == text + init;
      assert word == init + [word[|word| - 1]];
    }
  }

  lemma SplitLine(text: string, word: string)
    requires '\n' !in word && Split(text)[|Split(text)| - 1] == ""
    ensures Split(text + word + "\n") == Split(text)[|Split(text)| - 1 := word] + [""]
  {
    SplitWord(text, word);
    var all := text + word + "\n";
    assert all[..|all| - 1] == text + word;
  }

  lemma {:induction false} SplitUnlines(lines: seq<string>)
    requires forall l <- lines :: '\n' !in l
    ensures Split(Unlines(lines)) == lines + [""]
  {
    if lines != [] {
      var rest, last := lines[..|lines| - 1], lines[|lines| - 1];
      assert lines == rest + [last];
      SplitUnlines(rest);
      SplitLine(Unlines(rest), last);
      assert (rest + [""])[|rest| := last] == lines;
    }
  }

  /** No newline opens the text or follows another. */
  ghost predicate NoBlankLine(text: string) {
    forall i :: 0 <= i < |text| && text[i] == '\n' ==> i > 0 && text[i - 1] != '\n'
  }

  lemma {:induction false} UnlinesNoBlank(lines: seq<string>)
    requires forall l <- lines :: l != "" && '\n' !in l
    ensures NoBlankLine(Unlines(lines))
  {
    if lines != [] {
      var rest, last := lines[..|lines| - 1], lines[|lines| - 1];
      assert last in lines && forall l :: l in rest ==> l in lines;
      UnlinesNoBlank(rest);
      var text := Unlines(lines);
      assert text == Unlines(rest) + (last + "\n");
      forall i | 0 <= i < |text| && text[i] == '\n'
        ensures i > 0 && text[i - 1] != '\n'
      {
        if i >= |Unlines(rest)| {
          var j := i - |Unlines(rest)|;
          assert text[i] == (last + "\n")[j];
          assert text[i - 1] == last[|last| - 1];
          assert last[|last| - 1] in last;
        }
      }
    }
  }

  // ---- key and value ------------------------------------------------------------------------

  /** Cuts a line at its first equals sign. */
  function Cut(line: string): Option<(string, string)> {
    if line == "" then None
    else if line[0] == '=' then Some(("", line[1..]))
    else
      var rest := Cut(line[1..]);
      if rest.None? then None else Some(([line[0]] + rest.value.0, rest.value.1))
  }

  lemma {:induction false} CutAt(key: string, value: string)
    requires '=' !in key
    ensures Cut(key + "=" + value) == Some((key, value))
  {
    if key == "" {
      assert ("=" + value)[1..] == value;
      assert key + "=" + value == "=" + value;
    } else {
      CutAt(key[1..], value);
      assert (key + "=" + value)[1..] == key[1..] + "=" + value;
      assert key == [key[0]] + key[1..];
    }
  }

  datatype Field =
    | PrivateKey | ListenPort | Fwmark | ReplacePeers
    | PublicKey | Remove | UpdateOnly | PresharedKey | Endpoint | Keepalive | ReplaceAllowed | AllowedIP
    | HandshakeSec | HandshakeNsec | TxBytes | RxBytes
    | Errno | ProtocolVersion

  function Name(f: Field): string {
    match f
    case PrivateKey => "private_key"
    case ListenPort => "listen_port"
    case Fwmark => "fwmark"
    case ReplacePeers => "replace_peers"
    case PublicKey => "public_key"
    case Remove => "remove"
    case UpdateOnly => "update_only"
    case PresharedKey => "preshared_key"
    case Endpoint => "endpoint"
    case Keepalive => "persistent_keepalive_interval"
    case ReplaceAllowed => "replace_allowed_ips"
    case AllowedIP => "allowed_ip"
    case HandshakeSec => "last_handshake_time_sec"
    case HandshakeNsec => "last_handshake_time_nsec"
    case TxBytes => "tx_bytes"
    case RxBytes => "rx_bytes"
    case Errno => "errno"
    case ProtocolVersion => "protocol_version"
  }

  /** No two names agree in length and in the first and third character. */
  function Mark(f: Field): (nat, char, char)
    ensures |Name(f)| == Mark(f).0 && |Name(f)| > 2
    ensures Name(f)[0] == Mark(f).1 && Name(f)[2] == Mark(f).2
  {
    match f
    case PrivateKey => (11, 'p', 'i')
    case ListenPort => (11, 'l', 's')
    case Fwmark => (6, 'f', 'm')
    case ReplacePeers => (13, 'r', 'p')
    case PublicKey => (10, 'p', 'b')
    case Remove => (6, 'r', 'm')
    case UpdateOnly => (11, 'u', 'd')
    case PresharedKey => (13, 'p', 'e')
    case Endpoint => (8, 'e', 'd')
    case Keepalive => (29, 'p', 'r')
    case ReplaceAllowed => (19, 'r', 'p')
    case AllowedIP => (10, 'a', 'l')
    case HandshakeSec => (23, 'l', 's')
    case HandshakeNsec => (24, 'l', 's')
    case TxBytes => (8, 't', '_')
    case RxBytes => (8, 'r', '_')
    case Errno => (5, 'e', 'r')
    case ProtocolVersion => (16, 'p', 'o')
  }

  lemma NamesDiffer(f: Field, g: Field)
    ensures Name(f) == Name(g) <==> f == g
  {
    if Name(f) == Name(g) {
      assert Mark(f) == Mark(g);
    }
  }

  ghost predicate Clean(s: string) {
    '=' !in s && '\n' !in s
  }

  predicate SocketField(f: Field) {
    f in {ListenPort, Fwmark}
  }

  predicate DeviceField(f: Field) {
    f in {PrivateKey, ReplacePeers}
  }

  predicate PeerFlag(f: Field) {
    f in {PublicKey, Remove, UpdateOnly}
  }

  predicate PeerSetting(f: Field) {
    f in {PresharedKey, Endpoint, Keepalive}
  }

  predicate RouteField(f: Field) {
    f in {ReplaceAllowed, AllowedIP}
  }

  predicate CounterField(f: Field) {
    f in {TxBytes, RxBytes, HandshakeSec, HandshakeNsec}
  }

  lemma SocketNamesClean(f: Field)
    requires SocketField(f)
    ensures Clean(Name(f))
  {
  }

  lemma DeviceNamesClean(f: Field)
    requires DeviceField(f)
    ensures Clean(Name(f))
  {
  }

  lemma PeerFlagNamesClean(f: Field)
    requires PeerFlag(f)
    ensures Clean(Name(f))
  {
  }

  lemma PeerSettingNamesClean(f: Field)
    requires PeerSetting(f)
    ensures Clean(Name(f))
  {
  }

  lemma RouteNamesClean(f: Field)
    requires RouteField(f)
    ensures Clean(Name(f))
  {
  }

  lemma CounterNamesClean(f: Field)
    requires CounterField(f)
    ensures Clean(Name(f))
  {
  }

  lemma ProtocolNamesClean(f: Field)
    requires f == Errno || f == ProtocolVersion
    ensures Clean(Name(f))
  {
  }

  lemma NameClean(f: Field)
    ensures '=' !in Name(f) && '\n' !in Name(f)
  {
    assert Clean(Name(f)) by {
      if SocketField(f) {
        SocketNamesClean(f);
      } else if DeviceField(f) {
        DeviceNamesClean(f);
      } else if PeerFlag(f) {
        PeerFlagNamesClean(f);
      } else if PeerSetting(f) {
        PeerSettingNamesClean(f);
      } else if RouteField(f) {
        RouteNamesClean(f);
      } else if CounterField(f) {
        CounterNamesClean(f);
      } else {
        ProtocolNamesClean(f);
      }
    }
  }
}
