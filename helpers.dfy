/** utils/helpers.ts: id and token generation, file validation and the
    upload-window and countdown computations. The clock and `Math.random`
    are parameters: `now` is the current time in milliseconds and each random
    draw is a real in [0, 1). */
module Helpers {
  import opened Wrappers
  import opened Text
  import opened Types

  // ---------------------------------------------------------------- ids

  /** `s.substring(start, end)`: both ends are clamped to the string. */
  function Substring(s: string, start: nat, end: nat): (r: string)
    ensures |r| <= |s| && |r| <= if end >= start then end - start else start - end
  {
    var a := if start <= |s| then start else |s|;
    var b := if end <= |s| then end else |s|;
    if a <= b then s[a..b] else s[b..a]
  }

  /** `generateId`: the base-36 rendering of a random number without its
      leading "0." followed by the base-36 rendering of the clock. Both
      renderings are parameters. */
  function GenerateId(random36: string, now36: string): (id: string)
    ensures |random36| >= 2 ==> id == random36[2..] + now36
    ensures |random36| < 2 ==> id == now36
  {
    Substring(random36, 2, |random36|) + now36
  }

  /** `generateEventId`: "evt_", at most six upper-cased random base-36
      characters, then the upper-cased base-36 clock. */
  function GenerateEventId(random36: string, now36: string): (id: string)
    ensures |id| >= 4 && id[..4] == "evt_"
    ensures 4 + |now36| <= |id| <= 10 + |now36|
    ensures id[|id| - |now36|..] == ToUpper(now36)
  {
    "evt_" + ToUpper(Substring(random36, 2, 8)) + ToUpper(now36)
  }

  /** The 62 characters a token is drawn from. */
  const TokenAlphabet := "ABCDEFGHIJKLMNOPQRSTUVWXYZabcdefghijklmnopqrstuvwxyz0123456789"

  const DefaultTokenLength := 16
  const InviteTokenLength := 20

  predicate IsRandomDraw(x: real) { 0.0 <= x < 1.0 }

  predicate AreRandomDraws(draws: seq<real>)
  {
    forall i :: 0 <= i < |draws| ==> IsRandomDraw(draws[i])
  }

  /** `Math.floor(draw * chars.length)`: the position a draw selects. */
  function AlphabetIndex(draw: real): (k: nat)
    requires IsRandomDraw(draw)
    ensures k < |TokenAlphabet| == 62
  {
    (draw * 62.0).Floor
  }

  /** `generateToken(length)`: appends one alphabet character per random
      draw. The token has the requested length and only alphabet
      characters; character `i` is the one draw `i` selects. */
  method GenerateToken(length: nat, draws: seq<real>) returns (token: string)
    requires |draws| == length && AreRandomDraws(draws)
    ensures |token| == length
    ensures forall i :: 0 <= i < |token| ==> token[i] in TokenAlphabet
    ensures forall i :: 0 <= i < length ==> token[i] == TokenAlphabet[AlphabetIndex(draws[i])]
  {
    token := "";
    for i := 0 to length
      invariant |token| == i
      invariant forall j :: 0 <= j < i ==> token[j] == TokenAlphabet[AlphabetIndex(draws[j])]
    {
      token := token + [TokenAlphabet[AlphabetIndex(draws[i])]];
    }
  }

  /** `generateInviteToken`: a 20-character token. */
  method GenerateInviteToken(draws: seq<real>) returns (token: string)
    requires |draws| == InviteTokenLength && AreRandomDraws(draws)
    ensures |token| == 20
    ensures forall i :: 0 <= i < |token| ==> token[i] in TokenAlphabet
    ensures forall i :: 0 <= i < |token| ==> token[i] == TokenAlphabet[AlphabetIndex(draws[i])]
  {
    token := GenerateToken(InviteTokenLength, draws);
  }

  // ---------------------------------------------------------- validation

  /** A browser `File` as far as validation looks at it. */
  datatype FileDesc = FileDesc(name: string, size: nat, mimeType: string)

  /** `{ valid, error? }`. */
  datatype Validation = Validation(valid: bool, error: Option<string>)

  const AllowedFileTypes: seq<string> :=
    ["image/jpeg", "image/png", "image/webp", "image/gif", "image/heic"]

  const MaxFileSizeMb: nat := 50

  const BytesPerMb: nat := 1024 * 1024

  /** Every type has a '/', so `t.split('/')[1]` is defined for each. When
      this fails and a file's type is not allowed, building the type error
      throws in the source. */
  predicate HasSubtypes(types: seq<string>)
  {
    forall i :: 0 <= i < |types| ==> '/' in types[i]
  }

  /** `types.map(t => t.split('/')[1].toUpperCase())`. */
  function UpperSubtypes(types: seq<string>): (r: seq<string>)
    requires HasSubtypes(types)
    ensures |r| == |types|
    ensures forall i :: 0 <= i < |types| ==> r[i] == ToUpper(SecondPiece(types[i]).value)
  {
    if |types| == 0 then [] else [ToUpper(SecondPiece(types[0]).value)] + UpperSubtypes(types[1..])
  }

  /** The message for a file whose type is not allowed. */
  function TypeError(types: seq<string>): string
    requires HasSubtypes(types)
  {
    "Dateityp nicht erlaubt. Erlaubte Typen: " + Join(UpperSubtypes(types), ", ")
  }

  /** `(size / (1024 * 1024)).toFixed(2)` works on the exact quotient (a
      division by a power of two) and rounds to the nearest hundredth, a tie
      going up: the result is the hundredths of a megabyte nearest to `size`. */
  function HundredthsOfMb(size: nat): (h: nat)
    ensures (2 * h - 1) * BytesPerMb <= 200 * size < (2 * h + 1) * BytesPerMb
  {
    (200 * size + BytesPerMb) / (2 * BytesPerMb)
  }

  /** The message for a file over the size limit. */
  function SizeError(maxSizeMb: nat, size: nat): string
  {
    "Datei zu gro\U{00DF}. Maximum: " + NatToString(maxSizeMb) + "MB, Ihre Datei: "
      + FixedTwo(HundredthsOfMb(size)) + "MB"
  }

  /** The file passes both checks. `size / (1024 * 1024) > maxSizeMb` is
      exact for whole bytes and whole megabytes. */
  predicate Acceptable(file: FileDesc, types: seq<string>, maxSizeMb: nat)
  {
    file.mimeType in types && file.size <= maxSizeMb * BytesPerMb
  }

  /** `validateFile`: the type check first, then the size check. The
      precondition is the condition under which the source does not throw. */
  function ValidateFile(file: FileDesc, types: seq<string>, maxSizeMb: nat): (r: Validation)
    requires file.mimeType in types || HasSubtypes(types)
    ensures r.valid <==> Acceptable(file, types, maxSizeMb)
    ensures r.valid <==> r.error.None?
    ensures file.mimeType !in types ==> r.error == Some(TypeError(types))
    ensures file.mimeType in types && !r.valid ==> r.error == Some(SizeError(maxSizeMb, file.size))
  {
    if file.mimeType !in types then
      Validation(false, Some(TypeError(types)))
    else if file.size > maxSizeMb * BytesPerMb then
      Validation(false, Some(SizeError(maxSizeMb, file.size)))
    else
      Validation(true, None)
  }

  /** The type check takes priority: a file of a forbidden type gets the
      type error even when it is also too large. */
  lemma TypeCheckFirst(file: FileDesc, types: seq<string>, maxSizeMb: nat)
    requires HasSubtypes(types)
    requires file.mimeType !in types && file.size > maxSizeMb * BytesPerMb
    ensures ValidateFile(file, types, maxSizeMb) == Validation(false, Some(TypeError(types)))
  {
  }

  /** The size limit is inclusive: exactly `maxSizeMb` megabytes pass and one
      byte more fails with the size error. */
  lemma SizeLimitBoundary(name: string, mimeType: string, types: seq<string>, maxSizeMb: nat)
    requires mimeType in types
    ensures ValidateFile(FileDesc(name, maxSizeMb * BytesPerMb, mimeType), types, maxSizeMb).valid
    ensures ValidateFile(FileDesc(name, maxSizeMb * BytesPerMb + 1, mimeType), types, maxSizeMb)
            == Validation(false, Some(SizeError(maxSizeMb, maxSizeMb * BytesPerMb + 1)))
  {
  }

  /** With the default types the message lists the five subtypes in order. */
  lemma DefaultTypeError()
    ensures HasSubtypes(AllowedFileTypes)
    ensures TypeError(AllowedFileTypes)
            == "Dateityp nicht erlaubt. Erlaubte Typen: " + "JPEG, PNG, WEBP, GIF, HEIC"
  {
    DefaultUpperSubtypes();
    JoinDefaultSubtypes();
  }

  lemma JoinDefaultSubtypes()
    ensures Join(["JPEG", "PNG", "WEBP", "GIF", "HEIC"], ", ") == "JPEG, PNG, WEBP, GIF, HEIC"
  {
    JoinFive("JPEG", "PNG", "WEBP", "GIF", "HEIC");
    assert "JPEG" + ", " + ("PNG" + ", " + ("WEBP" + ", " + ("GIF" + ", " + "HEIC")))
           == "JPEG, PNG, WEBP, GIF, HEIC";
  }

  lemma JoinFive(a: string, b: string, c: string, d: string, e: string)
    ensures Join([a, b, c, d, e], ", ") == a + ", " + (b + ", " + (c + ", " + (d + ", " + e)))
  {
    assert Join([e], ", ") == e;
    assert Join([d, e], ", ") == d + ", " + e by { assert [d, e][1..] == [e]; }
    assert Join([c, d, e], ", ") == c + ", " + (d + ", " + e) by { assert [c, d, e][1..] == [d, e]; }
    assert Join([b, c, d, e], ", ") == b + ", " + (c + ", " + (d + ", " + e)) by {
      assert [b, c, d, e][1..] == [c, d, e];
    }
    assert [a, b, c, d, e][1..] == [b, c, d, e];
  }

  lemma DefaultUpperSubtypes()
    ensures HasSubtypes(AllowedFileTypes)
    ensures UpperSubtypes(AllowedFileTypes) == ["JPEG", "PNG", "WEBP", "GIF", "HEIC"]
  {
    ImageTypes(["image/jpeg", "image/png", "image/webp", "image/gif", "image/heic"],
               ["JPEG", "PNG", "WEBP", "GIF", "HEIC"], 
               ["jpeg", "png", "webp", "gif", "heic"]);
  }

  /** A list of "image/<sub>" types upper-cases to the subtypes. */
  lemma {:induction false} ImageTypes(types: seq<string>, upper: seq<string>, subs: seq<string>)
    requires |types| == |upper| == |subs|
    requires forall k :: 0 <= k < |subs| ==> types[k] == "image/" + subs[k]
    requires forall k :: 0 <= k < |subs| ==> '/' !in subs[k] && |subs[k]| == |upper[k]|
    requires forall k, i :: 0 <= k < |subs| && 0 <= i < |subs[k]| ==>
               'a' <= subs[k][i] <= 'z' && upper[k][i] as int == subs[k][i] as int - 32
    ensures HasSubtypes(types)
    ensures UpperSubtypes(types) == upper
  {
    if |types| > 0 {
      UpperImageSubtype(subs[0], upper[0]);
      ImageTypes(types[1..], upper[1..], subs[1..]);
    }
  }

  lemma UpperImageSubtype(sub: string, upper: string)
    requires '/' !in sub && |sub| == |upper|
    requires forall i :: 0 <= i < |sub| ==> 'a' <= sub[i] <= 'z' && upper[i] as int == sub[i] as int - 32
    ensures '/' in "image/" + sub
    ensures ToUpper(SecondPiece("image/" + sub).value) == upper
  {
    assert ("image/" + sub)[5] == '/';
    assert "image/" + sub == "image" + "/" + sub;
    SecondPieceOfMime("image", sub);
    UpperAsciiWord(sub, upper);
  }

  /** Upper-casing a lower-case ASCII word. */
  lemma UpperAsciiWord(lower: string, upper: string)
    requires |lower| == |upper|
    requires forall i :: 0 <= i < |lower| ==> 'a' <= lower[i] <= 'z' && upper[i] as int == lower[i] as int - 32
    ensures ToUpper(lower) == upper
  {
  }

  /** For "type/subtype" with no other '/', the second piece is the subtype. */
  lemma SecondPieceOfMime(kind: string, sub: string)
    requires '/' !in kind && '/' !in sub
    ensures SecondPiece(kind + "/" + sub) == Some(sub)
  {
    SplitNoSeparator(sub, '/');
    SplitAfterSeparator(kind, sub, '/');
  }

  lemma {:induction false} SplitNoSeparator(s: string, sep: char)
    requires sep !in s
    ensures Split(s, sep) == [s]
  {
    if |s| > 0 {
      SplitNoSeparator(s[1..], sep);
      assert [s[0]] + s[1..] == s;
    }
  }

  lemma {:induction false} SplitAfterSeparator(kind: string, sub: string, sep: char)
    requires sep !in kind && sep !in sub
    ensures Split(kind + [sep] + sub, sep) == [kind, sub]
  {
    var s := kind + [sep] + sub;
    if |kind| == 0 {
      assert s == [sep] + sub && s[1..] == sub;
      SplitNoSeparator(sub, sep);
    } else {
      assert s[0] == kind[0] && s[1..] == kind[1..] + [sep] + sub;
      SplitAfterSeparator(kind[1..], sub, sep);
      assert [kind[0]] + kind[1..] == kind;
    }
  }

  // ------------------------------------------------------------ time

  /** `isUploadWindowOpen`: the window includes both of its ends. */
  function IsUploadWindowOpen(uploadWindowStart: int, uploadDeadline: int, now: int): (open: bool)
    ensures open <==> uploadWindowStart <= now <= uploadDeadline
  {
    now >= uploadWindowStart && now <= uploadDeadline
  }

  datatype TimeRemaining = TimeRemaining(days: nat, hours: nat, minutes: nat, seconds: nat, isExpired: bool)

  const MsPerSecond := 1000
  const MsPerMinute := 60 * 1000
  const MsPerHour := 60 * 60 * 1000
  const MsPerDay := 24 * 60 * 60 * 1000

  /** `getTimeRemaining`: the positive time until the deadline split into
      days (not capped), hours, minutes and whole seconds. For a positive
      difference `Math.floor((diff / k) % m)` equals `(diff div k) mod m`. */
  function GetTimeRemaining(deadline: int, now: int): (t: TimeRemaining)
    ensures t.isExpired <==> deadline - now <= 0
    ensures t.isExpired ==> t == TimeRemaining(0, 0, 0, 0, true)
    ensures !t.isExpired ==> t.hours < 24 && t.minutes < 60 && t.seconds < 60
  {
    var diff := deadline - now;
    if diff <= 0 then TimeRemaining(0, 0, 0, 0, true)
    else TimeRemaining(diff / MsPerDay, (diff / MsPerHour) % 24, (diff / MsPerMinute) % 60,
                       (diff / MsPerSecond) % 60, false)
  }

  /** Before the deadline, the parts add up to the whole seconds left. */
  lemma TimeRemainingAddsUp(deadline: int, now: int)
    requires deadline > now
    ensures var t := GetTimeRemaining(deadline, now);
            t.days * 86400 + t.hours * 3600 + t.minutes * 60 + t.seconds == (deadline - now) / 1000
  {
    var diff := deadline - now;
    var secs := diff / 1000;
    var mins := secs / 60;
    var hrs := mins / 60;
    assert diff / MsPerMinute == mins;
    assert diff / MsPerHour == hrs;
    assert diff / MsPerDay == hrs / 24;
  }

  /** components/EventCard.tsx: a card shows an event as active while its
      flag is set and its deadline has not passed. */
  function IsShownActive(e: Event, now: int): (active: bool)
    ensures active <==> e.isActive && now < e.uploadDeadline
  {
    e.isActive && !GetTimeRemaining(e.uploadDeadline, now).isExpired
  }
}
