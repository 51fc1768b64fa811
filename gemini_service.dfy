/** The helpers of geminisocial/services/geminiService.ts: the byte codec
    around the browser's base64 functions, the conversion of a 16-bit PCM
    chunk into an audio buffer, and the text of the feed-sentiment prompt.
    Strings are `seq<char>`, one char per Unicode scalar value, whereas a
    JavaScript string counts UTF-16 code units; the two agree on the Latin-1
    strings (codes below 256) that the byte codec handles. */
module GeminiService {
  import opened Wrappers
  import opened Types

  /** An element of a `Uint8Array`. */
  type uint8 = x: int | 0 <= x < 0x100

  /** An element of an `Int16Array`. */
  type int16 = x: int | -0x8000 <= x < 0x8000

  // ---------------------------------------------------------------------
  // Base64 (atob/btoa) as an abstract pair
  // ---------------------------------------------------------------------

  /** The browser's `atob` and `btoa` (base64 of section 4 of RFC 4648),
      taken as given. `atob` throws on text that is not base64, which is
      `None` here; `btoa` is only ever applied to Latin-1 strings. */
  datatype Base64 = Base64(atob: string -> Option<string>, btoa: string -> string)

  /** Every code is below 256, so `btoa` accepts the string. */
  predicate IsLatin1(s: string) {
    forall i :: 0 <= i < |s| ==> s[i] as int < 0x100
  }

  /** What is assumed of the pair: decoding what was encoded gives back
      the Latin-1 string. */
  ghost predicate RoundTrips(b64: Base64) {
    forall s :: IsLatin1(s) ==> b64.atob(b64.btoa(s)) == Some(s)
  }

  // ---------------------------------------------------------------------
  // One char per byte
  // ---------------------------------------------------------------------

  /** The bytes a `Uint8Array` holds after `bytes[i] = s.charCodeAt(i)`:
      storing into a `Uint8Array` keeps the code modulo 256. */
  function Latin1ToBytes(s: string): (b: seq<uint8>)
    ensures |b| == |s|
    ensures forall i :: 0 <= i < |s| ==> b[i] == s[i] as int % 0x100
  {
    if s == [] then [] else Latin1ToBytes(s[..|s| - 1]) + [s[|s| - 1] as int % 0x100]
  }

  /** The string built by `binary += String.fromCharCode(bytes[i])`. */
  function BytesToLatin1(b: seq<uint8>): (s: string)
    ensures |s| == |b| && IsLatin1(s)
    ensures forall i :: 0 <= i < |b| ==> s[i] as int == b[i]
  {
    if b == [] then [] else BytesToLatin1(b[..|b| - 1]) + [b[|b| - 1] as char]
  }

  /** Turning bytes into chars and back gives the same bytes. */
  lemma BytesLatin1RoundTrip(b: seq<uint8>)
    ensures Latin1ToBytes(BytesToLatin1(b)) == b
  {
  }

  /** A Latin-1 string survives the trip through bytes unchanged; a string
      with a larger code does not (its code is cut to 8 bits). */
  lemma Latin1BytesRoundTrip(s: string)
    ensures BytesToLatin1(Latin1ToBytes(s)) == s <==> IsLatin1(s)
  {
    if IsLatin1(s) {
      Latin1Survives(s);
    } else {
      var i :| 0 <= i < |s| && s[i] as int >= 0x100;
      var t := BytesToLatin1(Latin1ToBytes(s));
      assert t[i] as int < 0x100;
    }
  }

  lemma Latin1Survives(s: string)
    requires IsLatin1(s)
    ensures BytesToLatin1(Latin1ToBytes(s)) == s
  {
    var b := Latin1ToBytes(s);
    var t := BytesToLatin1(b);
    assert |t| == |s|;
    forall i | 0 <= i < |s| ensures t[i] == s[i] {
      var code := s[i] as int;
      assert code < 0x100;
      SmallCodeKept(code);
      assert t[i] as int == code;
    }
  }

  lemma SmallCodeKept(code: int)
    requires 0 <= code < 0x100
    ensures code % 0x100 == code
  {
  }

  /** What `decode` returns for `base64`: the bytes of the decoded string,
      or `None` where `atob` throws. */
  function DecodedBytes(b64: Base64, base64: string): Option<seq<uint8>> {
    match b64.atob(base64)
    case None => None
    case Some(binary) => Some(Latin1ToBytes(binary))
  }

  /** What `encode` returns for `bytes`. */
  function EncodedText(b64: Base64, bytes: seq<uint8>): string {
    b64.btoa(BytesToLatin1(bytes))
  }

  /** decode(encode(bytes)) == bytes, given the base64 round trip. */
  lemma {:induction false} DecodeEncodeRoundTrip(b64: Base64, bytes: seq<uint8>)
    requires RoundTrips(b64)
    ensures DecodedBytes(b64, EncodedText(b64, bytes)) == Some(bytes)
  {
    var binary := BytesToLatin1(bytes);
    assert b64.atob(b64.btoa(binary)) == Some(binary);
    BytesLatin1RoundTrip(bytes);
  }

  /** decode: base64 text to a fresh byte array, one byte per decoded char. */
  method Decode(b64: Base64, base64: string) returns (r: Option<array<uint8>>)
    ensures r.None? <==> b64.atob(base64).None?
    ensures r.Some? ==> fresh(r.value)
    ensures r.Some? ==> |r.value[..]| == |b64.atob(base64).value|
    ensures r.Some? ==> Some(r.value[..]) == DecodedBytes(b64, base64)
  {
    var decoded := b64.atob(base64);
    if decoded.None? {
      return None;
    }
    var binary := decoded.value;
    var len := |binary|;
    var bytes := new uint8[len];
    for i := 0 to len
      invariant forall k :: 0 <= k < i ==> bytes[k] == binary[k] as int % 0x100
    {
      bytes[i] := binary[i] as int % 0x100;
    }
    assert bytes[..] == Latin1ToBytes(binary);
    r := Some(bytes);
  }

  /** encode: bytes to base64 text through a string of one char per byte. */
  method Encode(b64: Base64, bytes: array<uint8>) returns (text: string)
    ensures text == EncodedText(b64, bytes[..])
  {
    var binary := "";
    var len := bytes.Length;
    for i := 0 to len
      invariant |binary| == i
      invariant forall k :: 0 <= k < i ==> binary[k] as int == bytes[k]
    {
      binary := binary + [bytes[i] as char];
    }
    assert binary == BytesToLatin1(bytes[..]);
    text := b64.btoa(binary);
  }

  // ---------------------------------------------------------------------
  // 16-bit PCM
  // ---------------------------------------------------------------------

  /** Sample `k` of an `Int16Array` laid over the bytes: the two bytes
      `2k` and `2k+1`, low byte first (little-endian), read as signed. */
  function Int16At(data: seq<uint8>, k: nat): (x: int16)
    requires 2 * k + 1 < |data|
    ensures x as int % 0x10000 == data[2 * k] as int + 0x100 * data[2 * k + 1] as int
  {
    var u := data[2 * k] as int + 0x100 * data[2 * k + 1] as int;
    if u >= 0x8000 then u - 0x10000 else u
  }

  /** The bytes of `new Uint8Array(int16.buffer)` on the capture side:
      each sample as its low byte and then its high byte. */
  function Int16ToBytes(samples: seq<int16>): (b: seq<uint8>)
    ensures |b| == 2 * |samples|
    ensures forall k :: 0 <= k < |samples| ==> b[2 * k] == samples[k] as int % 0x100
    ensures forall k :: 0 <= k < |samples| ==> b[2 * k + 1] == (samples[k] as int % 0x10000) / 0x100
  {
    if samples == [] then []
    else
      var x := samples[|samples| - 1] as int % 0x10000;
      Int16ToBytes(samples[..|samples| - 1]) + [x % 0x100, x / 0x100]
  }

  /** Reading back the bytes of a sample gives the sample. */
  lemma {:induction false} Int16ToBytesRoundTrip(samples: seq<int16>, k: nat)
    requires k < |samples|
    ensures Int16At(Int16ToBytes(samples), k) == samples[k]
  {
    var b := Int16ToBytes(samples);
    var x := samples[k] as int % 0x10000;
    Int16Bytes(samples[k]);
    assert b[2 * k] as int + 0x100 * b[2 * k + 1] as int == x;
  }

  /** The low and high byte of a sample make up its 16-bit pattern, and the
      pattern read as signed is the sample. */
  lemma Int16Bytes(v: int16)
    ensures v as int % 0x100 + 0x100 * ((v as int % 0x10000) / 0x100) == v as int % 0x10000
    ensures var u := v as int % 0x10000; (if u >= 0x8000 then u - 0x10000 else u) == v as int
  {
    var u := v as int % 0x10000;
    if v < 0 {
      assert u == v as int + 0x10000;
      assert v as int % 0x100 == u % 0x100;
    } else {
      assert u == v as int;
    }
  }

  /** The sample scaled into [-1, 1): `int16 / 32768`, exact in `real`. */
  function Normalize(x: int16): (r: real)
    ensures -1.0 <= r <= 32767.0 / 32768.0
    ensures r * 32768.0 == x as real
  {
    x as real / 32768.0
  }

  /** Frames per channel: samples over channels, rounded down (the buffer
      length passed to `createBuffer` is cut to a whole number). */
  function FrameCount(byteLength: nat, numChannels: nat): (n: nat)
    requires numChannels >= 1
    ensures 2 * numChannels * n <= byteLength < 2 * numChannels * (n + 1)
  {
    byteLength / 2 / numChannels
  }

  /** Frame `i` of channel `c`: the sample at `i * numChannels + c` of the
      interleaved data, scaled. */
  function ChannelSample(data: seq<uint8>, numChannels: nat, c: nat, i: nat): (r: real)
    requires |data| % 2 == 0 && c < numChannels && i < FrameCount(|data|, numChannels)
    ensures -1.0 <= r <= 32767.0 / 32768.0
    ensures i * numChannels + c < |data| / 2
    ensures r * 32768.0 == Int16At(data, i * numChannels + c) as real
  {
    FrameIndexInRange(|data| / 2, numChannels, c, i);
    Normalize(Int16At(data, i * numChannels + c))
  }

  lemma FrameIndexInRange(samples: nat, numChannels: nat, c: nat, i: nat)
    requires c < numChannels && i < samples / numChannels
    ensures i * numChannels + c < samples
  {
    assert (i + 1) * numChannels <= (samples / numChannels) * numChannels <= samples;
  }

  /** With one channel every sample is a frame, in order. */
  lemma {:induction false} MonoFrames(data: seq<uint8>, i: nat)
    requires |data| % 2 == 0 && i < |data| / 2
    ensures FrameCount(|data|, 1) == |data| / 2
    ensures ChannelSample(data, 1, 0, i) == Normalize(Int16At(data, i))
  {
  }

  /** Captured samples sent as bytes come back, one channel, as the same
      samples scaled: the value times 32768 is the captured integer. */
  lemma {:induction false} PcmRoundTrip(samples: seq<int16>, i: nat)
    requires i < |samples|
    ensures FrameCount(|Int16ToBytes(samples)|, 1) == |samples|
    ensures ChannelSample(Int16ToBytes(samples), 1, 0, i) * 32768.0 == samples[i] as real
  {
    Int16ToBytesRoundTrip(samples, i);
  }

  /** Why decodeAudioData fails. */
  datatype AudioError =
    | OddByteLength   // `new Int16Array(buffer)` throws a RangeError
    | NoFrames        // `createBuffer` rejects a length of 0

  /** The planar buffer `createBuffer` returns, zero-filled. */
  class AudioBuffer {
    const numberOfChannels: nat
    const length: nat
    const sampleRate: int
    const channelData: array2<real>

    constructor (numberOfChannels: nat, length: nat, sampleRate: int)
      ensures this.numberOfChannels == numberOfChannels && this.length == length
      ensures this.sampleRate == sampleRate
      ensures fresh(channelData)
      ensures channelData.Length0 == numberOfChannels && channelData.Length1 == length
      ensures forall c, i :: 0 <= c < numberOfChannels && 0 <= i < length ==> channelData[c, i] == 0.0
    {
      this.numberOfChannels := numberOfChannels;
      this.length := length;
      this.sampleRate := sampleRate;
      channelData := new real[numberOfChannels, length]((_, _) => 0.0);
    }

    /** Seconds of playback: frames over the sample rate. */
    function Duration(): (d: real)
      requires sampleRate > 0
      ensures d >= 0.0 && d * sampleRate as real == length as real
    {
      length as real / sampleRate as real
    }
  }

  /** decodeAudioData: de-interleave the 16-bit samples of `data` into
      `numChannels` channels, scaling each by 1/32768. The channel count and
      rate must lie in the ranges `createBuffer` accepts (the one caller
      passes 1 and 24000). */
  method DecodeAudioData(data: array<uint8>, sampleRate: int, numChannels: nat)
    returns (r: Result<AudioBuffer, AudioError>)
    requires 1 <= numChannels <= 32 && 3000 <= sampleRate <= 768000
    ensures r == Err(OddByteLength) <==> data.Length % 2 != 0
    ensures r == Err(NoFrames) <==> data.Length % 2 == 0 && FrameCount(data.Length, numChannels) == 0
    ensures r.Ok? ==> fresh(r.value) && fresh(r.value.channelData)
    ensures r.Ok? ==>
      var buffer := r.value;
      && buffer.numberOfChannels == numChannels
      && buffer.length == FrameCount(data.Length, numChannels)
      && buffer.sampleRate == sampleRate
      && buffer.channelData.Length0 == numChannels
      && buffer.channelData.Length1 == buffer.length
      && forall c, i :: 0 <= c < numChannels && 0 <= i < buffer.length ==>
           buffer.channelData[c, i] == ChannelSample(data[..], numChannels, c, i)
  {
    if data.Length % 2 != 0 {
      return Err(OddByteLength);
    }
    var frameCount := FrameCount(data.Length, numChannels);
    if frameCount == 0 {
      return Err(NoFrames);
    }
    var buffer := new AudioBuffer(numChannels, frameCount, sampleRate);
    var channelData := buffer.channelData;
    for channel := 0 to numChannels
      invariant forall c, i :: 0 <= c < channel && 0 <= i < frameCount ==>
                  channelData[c, i] == ChannelSample(data[..], numChannels, c, i)
    {
      for i := 0 to frameCount
        invariant forall c, j :: 0 <= c < channel && 0 <= j < frameCount ==>
                    channelData[c, j] == ChannelSample(data[..], numChannels, c, j)
        invariant forall j :: 0 <= j < i ==>
                    channelData[channel, j] == ChannelSample(data[..], numChannels, channel, j)
      {
        FrameIndexInRange(data.Length / 2, numChannels, channel, i);
        channelData[channel, i] := Normalize(Int16At(data[..], i * numChannels + channel));
      }
    }
    r := Ok(buffer);
  }

  // ---------------------------------------------------------------------
  // The sentiment prompt
  // ---------------------------------------------------------------------

  /** Between two post bodies in the prompt. */
  const Separator: string := "\n---\n"

  /** The instruction in front of the post bodies. */
  const SentimentInstruction: string :=
    "Summarize the current mood and trending topics of these social media posts in 2 sentences:\n"

  /** `posts.map(p => p.content)`. */
  function Contents(posts: seq<Post>): (r: seq<string>)
    ensures |r| == |posts|
    ensures forall i :: 0 <= i < |posts| ==> r[i] == posts[i].content
  {
    if posts == [] then [] else [posts[0].content] + Contents(posts[1..])
  }

  /** `parts.join(sep)`: starts with the first part and ends with the last. */
  function Join(parts: seq<string>, sep: string): (r: string)
    ensures parts == [] ==> r == []
    ensures parts != [] ==> parts[0] <= r
    ensures parts != [] ==> |parts[|parts| - 1]| <= |r|
    ensures parts != [] ==> r[|r| - |parts[|parts| - 1]|..] == parts[|parts| - 1]
  {
    if parts == [] then ""
    else if |parts| == 1 then parts[0]
    else parts[0] + sep + Join(parts[1..], sep)
  }

  /** The prompt text analyzeFeedSentiment sends for the feed: the
      instruction, then the first post's body, ..., ending with the last
      post's body. */
  function SentimentPrompt(posts: seq<Post>): (r: string)
    ensures SentimentInstruction <= r
    ensures posts == [] ==> r == SentimentInstruction
    ensures posts != [] ==> SentimentInstruction + posts[0].content <= r
    ensures posts != [] ==>
              |posts[|posts| - 1].content| <= |r|
              && r[|r| - |posts[|posts| - 1].content|..] == posts[|posts| - 1].content
  {
    SentimentInstruction + Join(Contents(posts), Separator)
  }

  /** Total length of the parts. */
  function TotalLength(parts: seq<string>): nat {
    if parts == [] then 0 else |parts[0]| + TotalLength(parts[1..])
  }

  /** Joining two non-empty lists puts one separator between their joins. */
  lemma {:induction false} JoinAppend(xs: seq<string>, ys: seq<string>, sep: string)
    requires xs != [] && ys != []
    ensures Join(xs + ys, sep) == Join(xs, sep) + sep + Join(ys, sep)
  {
    var zs := xs + ys;
    assert |zs| > 1 && zs[0] == xs[0];
    assert Join(zs, sep) == xs[0] + sep + Join(zs[1..], sep);
    if |xs| > 1 {
      assert zs[1..] == xs[1..] + ys;
      JoinAppend(xs[1..], ys, sep);
      assert Join(xs, sep) == xs[0] + sep + Join(xs[1..], sep);
      ConcatRegroup(xs[0] + sep, Join(xs[1..], sep), sep, Join(ys, sep));
    } else {
      assert zs[1..] == ys;
      assert Join(xs, sep) == xs[0];
    }
  }

  /** Moving the brackets of a four-part concatenation. */
  lemma ConcatRegroup(a: string, b: string, c: string, d: string)
    ensures a + (b + c + d) == a + b + c + d
  {
  }

  /** The join holds every part and one separator between neighbours. */
  lemma {:induction false} JoinLength(parts: seq<string>, sep: string)
    requires parts != []
    ensures |Join(parts, sep)| == TotalLength(parts) + (|parts| - 1) * |sep|
  {
    if |parts| > 1 {
      var rest := Join(parts[1..], sep);
      JoinLength(parts[1..], sep);
      assert Join(parts, sep) == parts[0] + sep + rest;
      assert |Join(parts, sep)| == |parts[0]| + |sep| + |rest|;
      MulStep(|parts| - 2, |sep|);
    }
  }

  lemma MulStep(n: int, s: int)
    ensures (n + 1) * s == n * s + s
  {
  }

  /** The prompt lists every post body in feed order: the bodies of the
      first `n` posts, joined, start the prompt body. */
  lemma {:induction false} PromptListsPostsInOrder(posts: seq<Post>, n: nat)
    requires 0 < n < |posts|
    ensures Join(Contents(posts), Separator)
         == Join(Contents(posts[..n]), Separator) + Separator + Join(Contents(posts[n..]), Separator)
  {
    assert posts == posts[..n] + posts[n..];
    ContentsAppend(posts[..n], posts[n..]);
    JoinAppend(Contents(posts[..n]), Contents(posts[n..]), Separator);
  }

  lemma {:induction false} ContentsAppend(xs: seq<Post>, ys: seq<Post>)
    ensures Contents(xs + ys) == Contents(xs) + Contents(ys)
  {
    if xs != [] {
      assert (xs + ys)[1..] == xs[1..] + ys;
      ContentsAppend(xs[1..], ys);
    }
  }
}
