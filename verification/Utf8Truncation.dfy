/**
 The tool executor's output bound: text is cut to a number of UTF-8 bytes (section 3 of RFC 3629) by slicing its
 encoding and decoding the slice with errors ignored.
 */
module Utf8Truncation {
  type Byte = b: int | 0 <= b < 256

  /** What a string is made of; the surrogates among them have no encoding. */
  type CodePoint = c: int | 0 <= c < 0x11_0000

  type Text = seq<CodePoint>

  predicate Scalar(c: CodePoint) {
    !(0xD800 <= c < 0xE000)
  }

  predicate Encodable(text: Text) {
    forall i :: 0 <= i < |text| ==> Scalar(text[i])
  }

  // ----- Encoding -----

  function EncodeOne(c: CodePoint): (bytes: seq<Byte>)
    ensures 1 <= |bytes| <= 4
  {
    if c < 0x80 then [c]
    else if c < 0x800 then [0xC0 + c / 64, 0x80 + c % 64]
    else if c < 0x1_0000 then [0xE0 + c / 4096, 0x80 + c / 64 % 64, 0x80 + c % 64]
    else [0xF0 + c / 26_2144, 0x80 + c / 4096 % 64, 0x80 + c / 64 % 64, 0x80 + c % 64]
  }

  function Encode(text: Text): seq<Byte> {
    if text == [] then [] else EncodeOne(text[0]) + Encode(text[1..])
  }

  // ----- Decoding with errors ignored -----

  /** The length a first byte announces; 0 for one that cannot start a character. */
  function Announced(lead: Byte): nat {
    if lead < 0x80 then 1
    else if 0xC2 <= lead < 0xE0 then 2
    else if 0xE0 <= lead < 0xF0 then 3
    else if 0xF0 <= lead < 0xF5 then 4
    else 0
  }

  predicate Continues(b: Byte) {
    0x80 <= b < 0xC0
  }

  /** The second byte rules out overlong forms, surrogates and values past the last code point. */
  predicate Seconds(lead: Byte, b: Byte) {
    && Continues(b)
    && (lead == 0xE0 ==> b >= 0xA0) && (lead == 0xED ==> b < 0xA0)
    && (lead == 0xF0 ==> b >= 0x90) && (lead == 0xF4 ==> b < 0x90)
  }

  /** How many bytes at the front fit together, up to the announced length. */
  function Fitting(bytes: seq<Byte>): (n: nat)
    requires bytes != []
    ensures 1 <= n <= |bytes|
  {
    var announced := Announced(bytes[0]);
    if announced < 2 || |bytes| < 2 || !Seconds(bytes[0], bytes[1]) then 1
    else if announced < 3 || |bytes| < 3 || !Continues(bytes[2]) then 2
    else if announced < 4 || |bytes| < 4 || !Continues(bytes[3]) then 3
    else 4
  }

  function ValueOf(bytes: seq<Byte>): int
    requires 1 <= |bytes| <= 4
  {
    var b: seq<int> := bytes;
    if |b| == 1 then b[0]
    else if |b| == 2 then (b[0] - 0xC0) * 64 + (b[1] - 0x80)
    else if |b| == 3 then (b[0] - 0xE0) * 4096 + (b[1] - 0x80) * 64 + (b[2] - 0x80)
    else (b[0] - 0xF0) * 26_2144 + (b[1] - 0x80) * 4096 + (b[2] - 0x80) * 64 + (b[3] - 0x80)
  }

  /** Whole characters are kept; bytes that do not make one are skipped as far as they fit together. */
  function Decode(bytes: seq<Byte>): Text {
    if bytes == [] then []
    else
      var n := Fitting(bytes);
      if n == Announced(bytes[0]) then [ValueOf(bytes[..n])] + Decode(bytes[n..]) else Decode(bytes[n..])
  }

  // ----- Round trip and cuts -----

  lemma Digits(c: int)
    requires 0 <= c < 0x11_0000
    ensures c == c / 64 * 64 + c % 64 && c / 64 == c / 4096 * 64 + c / 64 % 64
    ensures c / 4096 == c / 26_2144 * 64 + c / 4096 % 64
  {
  }

  /** The encoding of a scalar value, however it goes on, is one whole character of that value. */
  lemma EncodedIsWhole(c: CodePoint, rest: seq<Byte>)
    requires Scalar(c)
    ensures var bytes := EncodeOne(c) + rest;
      Fitting(bytes) == Announced(bytes[0]) == |EncodeOne(c)| && ValueOf(EncodeOne(c)) == c
  {
    var one := EncodeOne(c);
    assert forall i :: 0 <= i < |one| ==> (one + rest)[i] == one[i];
    Digits(c);
  }

  lemma DecodeOne(c: CodePoint, rest: seq<Byte>)
    requires Scalar(c)
    ensures Decode(EncodeOne(c) + rest) == [c] + Decode(rest)
  {
    EncodedIsWhole(c, rest);
    var one := EncodeOne(c);
    assert (one + rest)[..|one|] == one && (one + rest)[|one|..] == rest;
  }

  /** A character cut short decodes to nothing. */
  lemma PartIsDropped(c: CodePoint, n: nat)
    requires Scalar(c) && n < |EncodeOne(c)|
    ensures Decode(EncodeOne(c)[..n]) == []
  {
    if n > 0 {
      var part := EncodeOne(c)[..n];
      EncodedIsWhole(c, []);
      assert EncodeOne(c) + [] == EncodeOne(c);
      assert Fitting(part) == n && part[n..] == [];
    }
  }

  lemma {:induction false} RoundTrip(text: Text)
    requires Encodable(text)
    ensures Decode(Encode(text)) == text
  {
    if text != [] {
      RoundTrip(text[1..]);
      DecodeOne(text[0], Encode(text[1..]));
    }
  }

  /** Prefixes of a text have prefixes of its encoding. */
  lemma {:induction false} EncodeJoin(s: Text, t: Text)
    ensures Encode(s + t) == Encode(s) + Encode(t)
  {
    if s == [] {
      assert s + t == t;
    } else {
      EncodeJoin(s[1..], t);
      assert (s + t)[1..] == s[1..] + t && (s + t)[0] == s[0];
      var one, r, q := EncodeOne(s[0]), Encode(s[1..]), Encode(t);
      assert one + (r + q) == (one + r) + q;
    }
  }

  lemma LongerIsLonger(text: Text, j: nat, k: nat)
    requires j < k <= |text|
    ensures |Encode(text[..j])| < |Encode(text[..k])|
  {
    EncodeJoin(text[..j], text[j..k]);
    assert text[..k] == text[..j] + text[j..k];
  }

  /** The first `k` code points are as many as fit into `max` bytes. */
  ghost predicate LongestFit(text: Text, k: nat, max: int)
    requires k <= |text|
  {
    && |Encode(text[..k])| <= max
    && forall j :: k < j <= |text| ==> |Encode(text[..j])| > max
  }

  lemma PrefixLength(text: Text, j: nat)
    requires 0 < j <= |text|
    ensures |Encode(text[..j])| == |EncodeOne(text[0])| + |Encode(text[1..][..j - 1])|
  {
    assert text[..j][0] == text[0] && text[..j][1..] == text[1..][..j - 1];
  }

  lemma OneMore(text: Text, cut: Text, max: nat)
    requires text != [] && |cut| < |text| && cut == text[1..][..|cut|] && LongestFit(text[1..], |cut|, max)
    ensures [text[0]] + cut == text[..|cut| + 1] && LongestFit(text, |cut| + 1, |EncodeOne(text[0])| + max)
  {
    PrefixLength(text, |cut| + 1);
    forall j | |cut| + 1 < j <= |text| ensures |Encode(text[..j])| > |EncodeOne(text[0])| + max {
      PrefixLength(text, j);
      assert |Encode(text[1..][..j - 1])| > max;
    }
  }

  /** Decoding the first `n` bytes of an encoding gives the longest prefix that fits them. */
  lemma {:induction false} CutDecodes(text: Text, n: nat)
    requires Encodable(text) && n <= |Encode(text)|
    ensures var cut := Decode(Encode(text)[..n]);
      |cut| <= |text| && cut == text[..|cut|] && LongestFit(text, |cut|, n)
  {
    if text != [] {
      var one, rest := EncodeOne(text[0]), text[1..];
      var encoded := Encode(text);
      if n < |one| {
        assert encoded[..n] == one[..n];
        PartIsDropped(text[0], n);
        forall j | 0 < j <= |text| ensures |Encode(text[..j])| > n { PrefixLength(text, j); }
      } else {
        var m := n - |one|;
        CutDecodes(rest, m);
        assert encoded[..n] == one + Encode(rest)[..m];
        DecodeOne(text[0], Encode(rest)[..m]);
        OneMore(text, Decode(Encode(rest)[..m]), m);
      }
    }
  }

  // ----- The bound -----

  datatype Result<T> = Ok(value: T) | EncodeError | Propagated

  function TruncateUtf8(text: Text, maxBytes: int): Result<(Text, bool)> {
    if maxBytes <= 0 then Ok(([], text != []))
    else if !Encodable(text) then EncodeError
    else if |Encode(text)| <= maxBytes then Ok((text, false))
    else Ok((Decode(Encode(text)[..maxBytes]), true))
  }

  function Cap(maxBytes: int): nat {
    if maxBytes <= 0 then 0 else maxBytes
  }

  /** Text is cut to its longest prefix that fits, and flagged exactly when something was dropped. */
  lemma TruncatesToLongestFit(text: Text, maxBytes: int)
    ensures var r := TruncateUtf8(text, maxBytes);
      && (r.Ok? <==> maxBytes <= 0 || Encodable(text))
      && (r.Ok? ==>
            var (kept, cut) := r.value;
            && |kept| <= |text| && kept == text[..|kept|] && LongestFit(text, |kept|, Cap(maxBytes))
            && (cut <==> kept != text))
  {
    if maxBytes <= 0 {
      forall j | 0 < j <= |text| ensures |Encode(text[..j])| > 0 {
        LongerIsLonger(text, 0, j);
      }
    } else if Encodable(text) {
      if |Encode(text)| <= maxBytes {
        assert text[..|text|] == text;
      } else {
        CutDecodes(text, maxBytes);
        assert text[..|text|] == text;
      }
    }
  }

  /** There is one longest fit. */
  lemma LongestFitIsUnique(text: Text, j: nat, k: nat, max: int)
    requires j <= |text| && k <= |text| && LongestFit(text, j, max) && LongestFit(text, k, max)
    ensures j == k
  {
  }

  /** A text that was cut stays as it is, under the same cap or a wider one. */
  lemma TruncationIsIdempotent(text: Text, maxBytes: int, wider: int)
    requires TruncateUtf8(text, maxBytes).Ok? && maxBytes <= wider
    ensures var kept := TruncateUtf8(text, maxBytes).value.0;
      TruncateUtf8(kept, wider) == Ok((kept, false))
  {
    TruncatesToLongestFit(text, maxBytes);
    var kept := TruncateUtf8(text, maxBytes).value.0;
    TruncatesToLongestFit(kept, wider);
    assert kept[..|kept|] == kept;
    if kept == [] { assert Encode(kept) == []; } else { LongerIsLonger(kept, 0, |kept|); }
  }

  function Smaller(a: int, b: int): int {
    if a <= b then a else b
  }

  /** The longest fit of a longest fit is the longest fit under the smaller cap. */
  lemma FitOfFit(text: Text, k: nat, j: nat, a: nat, b: nat)
    requires k <= |text| && LongestFit(text, k, a) && j <= k && LongestFit(text[..k], j, b)
    ensures LongestFit(text, j, Smaller(a, b))
  {
    assert text[..k][..j] == text[..j];
    if j < k { LongerIsLonger(text, j, k); }
    forall n | j < n <= |text| ensures |Encode(text[..n])| > Smaller(a, b) {
      if n <= k { assert text[..k][..n] == text[..n]; }
    }
  }

  /** Cutting by one cap and then by another is cutting by the smaller, and is flagged when either cut is. */
  lemma CapsCompose(text: Text, a: int, b: int)
    requires TruncateUtf8(text, a).Ok?
    ensures var (kept, cut) := TruncateUtf8(text, a).value;
      var both := TruncateUtf8(text, Smaller(a, b));
      && TruncateUtf8(kept, b).Ok? && both.Ok?
      && both.value == (TruncateUtf8(kept, b).value.0, cut || TruncateUtf8(kept, b).value.1)
  {
    TruncatesToLongestFit(text, a);
    var kept := TruncateUtf8(text, a).value.0;
    TruncatesToLongestFit(kept, b);
    TruncatesToLongestFit(text, Smaller(a, b));
    var twice, once := TruncateUtf8(kept, b).value.0, TruncateUtf8(text, Smaller(a, b)).value.0;
    FitOfFit(text, |kept|, |twice|, Cap(a), Cap(b));
    assert Cap(Smaller(a, b)) == Smaller(Cap(a), Cap(b));
    LongestFitIsUnique(text, |once|, |twice|, Cap(Smaller(a, b)));
    assert twice == text[..|kept|][..|twice|] == text[..|twice|] == once;
    assert |kept| == |text| ==> kept == text[..|text|] == text;
  }

  // ----- The executor -----

  datatype ToolCall = ToolCall(id: string, name: string)

  datatype ToolResult = ToolResult(
    callId: string, name: string, content: Text, isError: bool, truncated: bool, metadata: map<string, string>)

  /** What a handler does: returns a result, raises a tool error, or raises anything else. */
  datatype Handled = Returned(result: ToolResult) | ToolError(message: Text) | OtherError

  function ErrorResult(call: ToolCall, message: Text, cap: int): Result<ToolResult> {
    match TruncateUtf8(message, cap)
    case Ok((content, truncated)) => Ok(ToolResult(call.id, call.name, content, true, truncated, map[]))
    case _ => EncodeError
  }

  function Bound(result: ToolResult, cap: int): Result<ToolResult> {
    match TruncateUtf8(result.content, cap)
    case Ok((content, truncated)) =>
      if !truncated && content == result.content then Ok(result)
      else Ok(result.(content := content, truncated := result.truncated || truncated))
    case _ => EncodeError
  }

  /** `registry` gives what each registered handler does with this call. */
  function Execute(registry: map<string, Handled>, notFound: Text, call: ToolCall, maxResultBytes: int, outputByteCap: int)
    : Result<ToolResult>
  {
    var cap := Smaller(maxResultBytes, outputByteCap);
    if call.name !in registry then ErrorResult(call, notFound, cap)
    else
      match registry[call.name]
      case ToolError(message) => ErrorResult(call, message, cap)
      case Returned(result) => Bound(result, cap)
      case OtherError => Propagated
  }

  /** What the executor would hand on if there were no caps; nothing if the handler's exception propagates. */
  function Observation(registry: map<string, Handled>, notFound: Text, call: ToolCall): Result<ToolResult> {
    if call.name !in registry then Ok(ToolResult(call.id, call.name, notFound, true, false, map[]))
    else
      match registry[call.name]
      case ToolError(message) => Ok(ToolResult(call.id, call.name, message, true, false, map[]))
      case Returned(result) => Ok(result)
      case OtherError => Propagated
  }

  /**
   The executor's result is the observation with its content cut to the longest prefix that fits both caps and the
   flag raised exactly by a cut; only a foreign exception propagates, and only unencodable text fails to encode.
   */
  lemma ExecuteBoundsObservation(registry: map<string, Handled>, notFound: Text, call: ToolCall,
                                 maxResultBytes: int, outputByteCap: int)
    ensures var r, seen := Execute(registry, notFound, call, maxResultBytes, outputByteCap),
                           Observation(registry, notFound, call);
      && (r.Propagated? <==> seen.Propagated?)
      && (r.EncodeError? <==> seen.Ok? && maxResultBytes > 0 && outputByteCap > 0 && !Encodable(seen.value.content))
      && (r.Ok? ==>
            var content, all := r.value.content, seen.value.content;
            && |content| <= |all| && content == all[..|content|]
            && |Encode(content)| <= Cap(maxResultBytes) && |Encode(content)| <= Cap(outputByteCap)
            && (forall j :: |content| < j <= |all| ==>
                  |Encode(all[..j])| > maxResultBytes || |Encode(all[..j])| > outputByteCap)
            && r.value == seen.value.(content := content, truncated := seen.value.truncated || content != all))
  {
    var seen := Observation(registry, notFound, call);
    if seen.Ok? {
      TruncatesToLongestFit(seen.value.content, Smaller(maxResultBytes, outputByteCap));
    }
  }
}
