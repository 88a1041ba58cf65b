/** Counter names in src/ceph.c: compact_ds_name, which turns a key into a capitalised
    name in a fixed buffer, and parse_keys, which first strips a known suffix. */
module CephNames {
  import opened Common
  import CephKeys

  // ---------------------------------------------------------------- specification

  predicate Delimiter(c: char) {
    c == ':' || c == '_' || c == '-' || c == '+'
  }

  function ToUpper(c: char): char {
    if 'a' <= c <= 'z' then c - 'a' + 'A' else c
  }

  function Capital(token: string): string {
    if token == "" then "" else [ToUpper(token[0])] + token[1..]
  }

  /** Length of the token at the front: what strtok_r would cut off. */
  function TokenLength(s: string): (n: nat)
    ensures n <= |s|
    ensures forall i :: 0 <= i < n ==> !Delimiter(s[i])
    ensures n < |s| ==> Delimiter(s[n])
  {
    if s == "" || Delimiter(s[0]) then 0 else 1 + TokenLength(s[1..])
  }

  /** The capitalised tokens of s, concatenated. */
  function Camel(s: string): string
    decreases |s|
  {
    if s == "" then ""
    else if Delimiter(s[0]) then Camel(s[1..])
    else
      var n := TokenLength(s);
      Capital(s[..n]) + Camel(s[n..])
  }

  predicate EndsIn(src: string, c: char) {
    src != "" && src[|src| - 1] == c
  }

  /** The source without one trailing plus or minus sign. */
  function Stem(src: string): string {
    if EndsIn(src, '+') || EndsIn(src, '-') then src[..|src| - 1] else src
  }

  function Ending(src: string): string {
    if EndsIn(src, '+') then "Plus" else if EndsIn(src, '-') then "Minus" else ""
  }

  /** The specification of compact_ds_name: the camel-cased stem cut to the buffer, and
      cut further as far as needed to keep the ending whole. */
  function Compact(src: string, size: nat): string
    requires size > 5
  {
    var base := Cut(Camel(Stem(src)), size);
    if Ending(src) == "" then base
    else base[..Min(|base|, size - (|Ending(src)| + 1))] + Ending(src)
  }

  // ------------------------------------------------------ meaning of the specification

  /** Camel case character by character: delimiters vanish, and a character is
      capitalised exactly when it is the first one or follows a delimiter. */
  function CamelChars(s: string, first: bool): string {
    if s == "" then ""
    else if Delimiter(s[0]) then CamelChars(s[1..], true)
    else [if first then ToUpper(s[0]) else s[0]] + CamelChars(s[1..], false)
  }

  lemma {:induction false} CamelIsCharwise(s: string)
    ensures Camel(s) == CamelChars(s, true)
    decreases |s|
  {
    if s != "" {
      if Delimiter(s[0]) {
        CamelIsCharwise(s[1..]);
      } else {
        var n := TokenLength(s);
        CamelIsCharwise(s[n..]);
        CharsInToken(s[1..], n - 1);
        assert s[1..][..n - 1] == s[..n][1..];
        assert s[1..][n - 1..] == s[n..];
      }
    }
  }

  /** Inside a token nothing is capitalised, and after it (if at all) comes a delimiter. */
  lemma {:induction false} CharsInToken(s: string, n: nat)
    requires n <= |s| && (forall i :: 0 <= i < n ==> !Delimiter(s[i])) && (n < |s| ==> Delimiter(s[n]))
    ensures CamelChars(s, false) == s[..n] + CamelChars(s[n..], true)
  {
    if n > 0 {
      CharsInToken(s[1..], n - 1);
      assert s[1..][n - 1..] == s[n..];
      assert s[..n] == [s[0]] + s[1..][..n - 1];
    } else {
      assert s[..0] == "" && s[0..] == s;
    }
  }

  predicate Clean(s: string) {
    forall i :: 0 <= i < |s| ==> !Delimiter(s[i])
  }

  lemma {:induction false} CamelCharsClean(s: string, first: bool)
    ensures Clean(CamelChars(s, first))
    ensures |CamelChars(s, first)| <= |s|
  {
    if s != "" {
      CamelCharsClean(s[1..], if Delimiter(s[0]) then true else false);
    }
  }

  /** The result fits, holds no delimiter, extends a prefix of the camel-cased stem by
      the whole ending, and is not cut when there is room. */
  lemma CompactMeaning(src: string, size: nat)
    requires size > 5
    ensures var out := Compact(src, size);
            var camel := CamelChars(Stem(src), true);
            && |out| < size
            && Clean(out)
            && (exists n :: 0 <= n <= |camel| && out == camel[..n] + Ending(src))
            && (|camel| + |Ending(src)| < size ==> out == camel + Ending(src))
            && (|camel| + |Ending(src)| >= size ==> |out| == size - 1)
  {
    CamelIsCharwise(Stem(src));
    CamelCharsClean(Stem(src), true);
    var out := Compact(src, size);
    var camel := CamelChars(Stem(src), true);
    var n := |out| - |Ending(src)|;
    assert out == camel[..n] + Ending(src);
    assert camel[..|camel|] == camel;
  }

  /** The characters: four delimiters, and capitals for the letters a to z. */
  lemma Characters(c: char)
    ensures Delimiter(c) <==> c in ":_-+"
    ensures var small, large := "abcdefghijklmnopqrstuvwxyz", "ABCDEFGHIJKLMNOPQRSTUVWXYZ";
            && (forall i :: 0 <= i < 26 && c == small[i] ==> ToUpper(c) == large[i])
            && (c !in small ==> ToUpper(c) == c)
  {
    var small, large := "abcdefghijklmnopqrstuvwxyz", "ABCDEFGHIJKLMNOPQRSTUVWXYZ";
    forall i | 0 <= i < 26 ensures small[i] == 'a' + i as char && large[i] == 'A' + i as char {
    }
    if 'a' <= c <= 'z' {
      assert small[(c - 'a') as int] == c;
    }
  }

  /** One sign at the end is spelled out; without one the name is the stem's. */
  lemma SignsSpelled(s: string, size: nat)
    requires size > 5
    ensures var camel := CamelChars(s, true);
            && (exists n :: 0 <= n <= |camel| && Compact(s + ['+'], size) == camel[..n] + "Plus")
            && (exists n :: 0 <= n <= |camel| && Compact(s + ['-'], size) == camel[..n] + "Minus")
            && (|camel| + 4 < size ==> Compact(s + ['+'], size) == camel + "Plus")
            && (|camel| + 5 < size ==> Compact(s + ['-'], size) == camel + "Minus")
            && (s == "" || s[|s| - 1] !in "+-" ==> Compact(s, size) == Cut(camel, size))
  {
    CompactMeaning(s + ['+'], size);
    CompactMeaning(s + ['-'], size);
    CamelIsCharwise(s);
    assert Stem(s + ['+']) == s == Stem(s + ['-']);
  }

  // ------------------------------------------------------------------ the procedure

  /** sstrncpy(buffer + at, s, |s| + 1) */
  method CopyString(buffer: array<char>, at: nat, s: string)
    requires at + |s| < buffer.Length
    modifies buffer
    ensures buffer[..at + |s| + 1] == old(buffer[..at]) + s + ['\0']
  {
    for i := 0 to |s|
      invariant buffer[..at + i] == old(buffer[..at]) + s[..i]
    {
      buffer[at + i] := s[i];
    }
    buffer[at + |s|] := '\0';
  }

  /** Does the stem leave anything for the name? Otherwise the buffer stays unwritten. */
  predicate HasName(src: string) {
    exists i :: 0 <= i < |Stem(src)| && !Delimiter(Stem(src)[i])
  }

  lemma {:induction false} CStringEnds(s: string, n: nat)
    requires n < |s| && '\0' !in s[..n] && s[n] == '\0'
    ensures CString(s) == s[..n]
  {
    if n > 0 {
      assert s[0] == s[..n][0];
      assert s[1..][..n - 1] == s[..n][1..];
      CStringEnds(s[1..], n - 1);
      assert s[..n] == [s[0]] + s[1..][..n - 1];
    }
  }

  lemma {:induction false} CamelNoNul(s: string)
    requires '\0' !in s
    ensures '\0' !in Camel(s)
    decreases |s|
  {
    if s != "" {
      if Delimiter(s[0]) {
        CamelNoNul(s[1..]);
      } else {
        CamelNoNul(s[TokenLength(s)..]);
      }
    }
  }

  /** The delimiters that strtok_r skips before a token. */
  method SkipDelimiters(text: string, from: nat) returns (pos: nat)
    requires from <= |text|
    ensures from <= pos <= |text|
    ensures forall i :: from <= i < pos ==> Delimiter(text[i])
    ensures pos < |text| ==> !Delimiter(text[pos])
    ensures Camel(text[from..]) == Camel(text[pos..])
  {
    pos := from;
    while pos < |text| && Delimiter(text[pos])
      invariant from <= pos <= |text|
      invariant forall i :: from <= i < pos ==> Delimiter(text[i])
      invariant Camel(text[from..]) == Camel(text[pos..])
    {
      assert text[pos..][1..] == text[pos + 1..];
      pos := pos + 1;
    }
  }

  /** Append one token, or as much of it as fits. */
  method AppendToken(buffer: array<char>, used: nat, token: string) returns (used': nat)
    requires used + 1 < buffer.Length
    modifies buffer
    ensures used' < buffer.Length && buffer[used'] == '\0'
    ensures buffer[..used'] == Cut(old(buffer[..used]) + token, buffer.Length)
  {
    var room := buffer.Length - used;
    var len := |token|;
    if len >= room {
      len := room - 1;
    }
    CopyString(buffer, used, token[..len]);
    used' := used + len;
    assert buffer[..used' + 1][..used'] == buffer[..used'];
    assert buffer[..used' + 1][used'] == buffer[used'];
    assert old(buffer[..used]) + token[..len] == (old(buffer[..used]) + token)[..used'];
  }

  /** strtok_r at a token: the token, capitalised, and where it ends. */
  method TakeToken(text: string, pos: nat) returns (token: string, next: nat)
    requires pos < |text| && !Delimiter(text[pos])
    ensures token != "" && pos < next <= |text|
    ensures Camel(text[pos..]) == token + Camel(text[next..])
  {
    var n := TokenLength(text[pos..]);
    token, next := Capital(text[pos..][..n]), pos + n;
    assert text[pos..][n..] == text[next..];
  }

  /** The loop of compact_ds_name: split, capitalise, append. `used` is ptr - buffer. */
  method AppendTokens(buffer: array<char>, text: string) returns (used: nat)
    requires buffer.Length > 5
    requires exists i :: 0 <= i < |text| && !Delimiter(text[i])
    modifies buffer
    ensures used < buffer.Length && buffer[used] == '\0'
    ensures buffer[..used] == Cut(Camel(text), buffer.Length)
  {
    used := 0;
    var pos := 0;
    ghost var first :| 0 <= first < |text| && !Delimiter(text[first]);
    while true
      invariant pos <= |text| && used + 1 < buffer.Length
      invariant Camel(text) == buffer[..used] + Camel(text[pos..])
      invariant if used == 0 then pos <= first else buffer[used] == '\0'
      decreases |text| - pos
    {
      pos := SkipDelimiters(text, pos);
      if pos == |text| {
        break;
      }
      var token;
      token, pos := TakeToken(text, pos);
      ghost var before, rest := buffer[..used], Camel(text[pos..]);
      used := AppendToken(buffer, used, token);
      AppendedCut(before, token, rest, buffer.Length);
      if used + 1 >= buffer.Length {
        break;
      }
    }
  }

  /** After a token: either the buffer is full for good, or all of it was copied. */
  lemma AppendedCut(before: string, token: string, rest: string, size: nat)
    requires 0 < size && token != ""
    ensures var copied := Cut(before + token, size);
            if |copied| + 1 >= size then Cut(before + (token + rest), size) == copied
            else before + (token + rest) == copied + rest && copied != ""
  {
    assert before + (token + rest) == (before + token) + rest;
  }

  const EINVAL: int := 22

  /** compact_ds_name. Sources without any name character are outside of it: for them
      the C code reads a buffer it has not written. */
  method CompactDsName(buffer: array<char>, src: string) returns (status: int)
    requires '\0' !in src && (buffer.Length > 5 ==> HasName(src))
    modifies buffer
    ensures buffer.Length <= 5 ==> status == EINVAL && buffer[..] == old(buffer[..])
    ensures buffer.Length > 5 ==> status == 0 && CString(buffer[..]) == Compact(src, buffer.Length)
  {
    if buffer.Length <= 5 {
      return EINVAL;
    }
    var text, append := src, "";
    if src[|src| - 1] == '+' {
      append := "Plus";
      text := src[..|src| - 1];
    } else if src[|src| - 1] == '-' {
      append := "Minus";
      text := src[..|src| - 1];
    }
    var used := CompactStem(buffer, text);
    if append != "" {
      AppendEnding(buffer, used, append);
    }
    return 0;
  }

  /** The buffer as a C string after the loop. */
  method CompactStem(buffer: array<char>, text: string) returns (used: nat)
    requires buffer.Length > 5 && '\0' !in text
    requires exists i :: 0 <= i < |text| && !Delimiter(text[i])
    modifies buffer
    ensures used < buffer.Length && '\0' !in buffer[..used]
    ensures CString(buffer[..]) == buffer[..used] == Cut(Camel(text), buffer.Length)
  {
    used := AppendTokens(buffer, text);
    CamelNoNul(text);
    CStringEnds(buffer[..], used);
  }

  method AppendEnding(buffer: array<char>, used: nat, append: string)
    requires |append| + 1 <= buffer.Length && used < buffer.Length
    requires '\0' !in buffer[..used] && '\0' !in append
    modifies buffer
    ensures CString(buffer[..]) == old(buffer[..used])[..Min(used, buffer.Length - (|append| + 1))] + append
  {
    var offset := buffer.Length - (|append| + 1);
    if offset > used {
      offset := used;
    }
    ghost var out := buffer[..offset] + append;
    assert buffer[..offset] == buffer[..used][..offset];
    CopyString(buffer, offset, append);
    assert buffer[..offset + |append| + 1][..offset + |append|] == buffer[..offset + |append|];
    assert buffer[..offset + |append| + 1][offset + |append|] == buffer[offset + |append|];
    CStringEnds(buffer[..], offset + |append|);
  }

  // --------------------------------------------------------------------- parse_keys

  predicate HasSuffix(s: string, suffix: string) {
    |suffix| <= |s| && s[|s| - |suffix|..] == suffix
  }

  function Dots(s: string): nat {
    if s == "" then 0 else (if s[0] == '.' then 1 else 0) + Dots(s[1..])
  }

  /** count_parts: a dot in front of the whole key does not count. */
  function PartsCount(key: string): nat
    requires key != ""
  {
    1 + Dots(key[1..])
  }

  const SUFFIXES: seq<string> := [".type", ".avgcount", ".sum", ".avgtime"]

  /** The first listed suffix that the key ends in, or nothing. */
  function KnownSuffix(key: string): (r: string)
    ensures r != "" ==> r in SUFFIXES && HasSuffix(key, r)
    ensures r == "" ==> forall t :: t in SUFFIXES ==> !HasSuffix(key, t)
  {
    if HasSuffix(key, ".type") then ".type"
    else if HasSuffix(key, ".avgcount") then ".avgcount"
    else if HasSuffix(key, ".sum") then ".sum"
    else if HasSuffix(key, ".avgtime") then ".avgtime"
    else ""
  }

  function Stripped(key: string): string
    requires key != ""
  {
    if PartsCount(key) <= 2 then key
    else
      var suffix := KnownSuffix(key);
      if suffix == "" then key else key[..|key| - |suffix|]
  }

  /** The name parse_keys gives to a key (of less than 256 bytes, as ceph_cb_number makes them). */
  function DsName(key: string): string
    requires key != ""
  {
    Compact(Stripped(key), NAME_LEN)
  }

  /** A key of at most two parts keeps its suffix; a longer one loses the one it has. */
  lemma PartsDecide(key: string)
    requires key != ""
    ensures Dots(key[1..]) <= 1 ==> DsName(key) == Compact(key, 128)
    ensures forall suffix :: suffix in SUFFIXES && HasSuffix(key, suffix) && Dots(key[1..]) >= 2 ==>
              DsName(key) == Compact(key[..|key| - |suffix|], 128)
  {
    forall suffix | suffix in SUFFIXES && HasSuffix(key, suffix) ensures KnownSuffix(key) == suffix {
      OneSuffix(key, suffix);
    }
  }

  lemma {:induction false} DotsConcat(a: string, b: string)
    ensures Dots(a + b) == Dots(a) + Dots(b)
  {
    if a == "" {
      assert a + b == b;
    } else {
      assert (a + b)[1..] == a[1..] + b;
      DotsConcat(a[1..], b);
    }
  }

  /** The schema entry and all data entries of one counter get the same name, whenever
      the counter sits below a section (its key has a dot that is not in front). */
  lemma SuffixesAgree(counter: string, suffix: string)
    requires counter != "" && Dots(counter[1..]) > 0 && suffix in SUFFIXES
    ensures Stripped(counter + suffix) == counter
    ensures DsName(counter + suffix) == Compact(counter, NAME_LEN)
  {
    var key := counter + suffix;
    assert key[1..] == counter[1..] + suffix;
    DotsConcat(counter[1..], suffix);
    DotInFront(suffix);
    assert key[|key| - |suffix|..] == suffix;
    assert key[..|key| - |suffix|] == counter;
    OneSuffix(key, suffix);
    assert KnownSuffix(key) == suffix;
  }

  /** What ceph_cb_number's buffer does to that: a counter is recovered from its cut key
      exactly if the whole key fits, or if the cut falls just behind the counter and this
      does not look like a suffixed key itself. */
  lemma CutKeys(counter: string, suffix: string)
    requires counter != "" && Dots(counter[1..]) > 0 && suffix in SUFFIXES
    ensures Stripped(Cut(counter + suffix, 256)) == counter <==>
              || |counter| + |suffix| < 256
              || (|counter| == 255 && (KnownSuffix(counter) == "" || Dots(counter[1..]) == 1))
    ensures |counter| + |suffix| < CephKeys.KEY_SIZE ==>
              DsName(Cut(counter + suffix, CephKeys.KEY_SIZE)) == Compact(counter, NAME_LEN)
  {
    var key := Cut(counter + suffix, CephKeys.KEY_SIZE);
    if |counter| + |suffix| < CephKeys.KEY_SIZE {
      SuffixesAgree(counter, suffix);
    } else if |counter| >= CephKeys.KEY_SIZE {
      assert |Stripped(key)| < |counter|;
    } else if |counter| == CephKeys.KEY_SIZE - 1 {
      assert key == counter;
      assert KnownSuffix(counter) != "" ==> |KnownSuffix(counter)| > 0;
    } else {
      CutInsideSuffix(counter, suffix, suffix[..CephKeys.KEY_SIZE - 1 - |counter|]);
      assert key == counter + suffix[..CephKeys.KEY_SIZE - 1 - |counter|];
    }
  }

  /** Part of a suffix is not stripped. */
  lemma CutInsideSuffix(counter: string, suffix: string, part: string)
    requires counter != "" && suffix in SUFFIXES && part != "" && part < suffix
    ensures Stripped(counter + part) != counter
  {
    var key := counter + part;
    var t := KnownSuffix(key);
    if Stripped(key) == counter {
      assert |t| == |part|;
      assert key[|key| - |t|..] == part;
      NoSuffixInSuffix(t, suffix);
    }
  }

  lemma NoSuffixInSuffix(t: string, suffix: string)
    requires t in SUFFIXES && suffix in SUFFIXES && t <= suffix
    ensures t == suffix
  {
    assert t[1] == suffix[1];
    assert |t| > 4 && |suffix| > 4 ==> t[4] == suffix[4];
  }

  // ------------------------------------------------------- names stored and names sent

  /** The whole name of a stripped key, before it is cut to a buffer. */
  function FullName(src: string): string {
    Camel(Stem(src)) + Ending(src)
  }

  lemma CompactIsFullName(src: string)
    ensures |FullName(src)| < NAME_LEN ==> Compact(src, NAME_LEN) == FullName(src)
    ensures |FullName(src)| >= NAME_LEN ==> |Compact(src, NAME_LEN)| == NAME_LEN - 1
  {
    CompactMeaning(src, NAME_LEN);
    CamelIsCharwise(Stem(src));
  }

  /** ceph_daemon_add_ds_entry stores the name of a schema key once more cut: sstrncpy is
      told one byte less than the buffer has. */
  function StoredName(key: string): string
    requires key != ""
  {
    Cut(DsName(key), NAME_LEN - 1)
  }

  /** A name survives the second cut exactly if it has at most 126 characters in full. */
  lemma StoredIsSent(key: string)
    requires key != ""
    ensures StoredName(key) == DsName(key) <==> |FullName(Stripped(key))| < 127
  {
    CompactIsFullName(Stripped(key));
  }

  /** Behind a counter, a dot and letters are kept as they are. */
  predicate DotAndLetters(part: string) {
    part != "" && part[0] == '.' && forall i :: 0 < i < |part| ==> 'a' <= part[i] <= 'z'
  }

  lemma {:induction false} CamelCharsPart(s: string, part: string, first: bool)
    requires DotAndLetters(part)
    ensures CamelChars(s + part, first) == CamelChars(s, first) + part
  {
    if s == "" {
      assert s + part == part;
      CharsInToken(part[1..], |part| - 1);
      assert part[1..][|part| - 1..] == "" && part == ['.'] + part[1..];
    } else {
      assert (s + part)[1..] == s[1..] + part;
      CamelCharsPart(s[1..], part, Delimiter(s[0]));
    }
  }

  lemma {:induction false} CamelCharsStem(s: string, first: bool)
    requires s != "" && Delimiter(s[|s| - 1])
    ensures CamelChars(s, first) == CamelChars(s[..|s| - 1], first)
  {
    if |s| > 1 {
      assert s[1..][..|s| - 2] == s[..|s| - 1][1..];
      CamelCharsStem(s[1..], Delimiter(s[0]));
    }
  }

  /** The full names of a counter, and of a counter followed by part of a suffix. */
  lemma FullNames(counter: string, part: string)
    requires counter != "" && DotAndLetters(part)
    ensures Camel(Stem(counter)) == Camel(counter)
    ensures Camel(Stem(counter + part)) == Camel(counter) + part && Ending(counter + part) == ""
    ensures Compact(counter + part, NAME_LEN) == Cut(Camel(counter) + part, NAME_LEN)
  {
    CamelIsCharwise(counter);
    CamelIsCharwise(Stem(counter));
    if Ending(counter) != "" {
      CamelCharsStem(counter, true);
    }
    var key := counter + part;
    assert key[|key| - 1] == part[|part| - 1];
    CamelIsCharwise(key);
    CamelCharsPart(counter, part, true);
  }

  /** What is left of a suffix behind a counter in a key cut to the buffer. */
  function Part(counter: string, suffix: string): string
    requires |counter| < CephKeys.KEY_SIZE - 1
  {
    suffix[..Min(|suffix|, CephKeys.KEY_SIZE - 1 - |counter|)]
  }

  predicate Fits(counter: string, suffix: string) {
    |counter| + |suffix| < CephKeys.KEY_SIZE
  }

  /** A part of a suffix, cut or not, is a dot and letters. */
  lemma PartShape(counter: string, suffix: string)
    requires suffix in SUFFIXES && |counter| < CephKeys.KEY_SIZE - 1
    ensures DotAndLetters(Part(counter, suffix))
    ensures Cut(counter + suffix, CephKeys.KEY_SIZE) == counter + Part(counter, suffix)
    ensures Fits(counter, suffix) <==> Part(counter, suffix) == suffix
  {
    assert DotAndLetters(suffix);
  }

  /** The stripped key of a counter, whole or cut. */
  lemma StrippedKey(counter: string, suffix: string)
    requires counter != "" && Dots(counter[1..]) > 0 && suffix in SUFFIXES
    requires |counter| < CephKeys.KEY_SIZE - 1
    ensures Stripped(Cut(counter + suffix, CephKeys.KEY_SIZE)) ==
            if Fits(counter, suffix) then counter else counter + Part(counter, suffix)
  {
    PartShape(counter, suffix);
    if Fits(counter, suffix) {
      SuffixesAgree(counter, suffix);
    } else {
      NotStripped(counter, suffix, Part(counter, suffix));
    }
  }

  lemma NotStripped(counter: string, suffix: string, part: string)
    requires counter != "" && suffix in SUFFIXES && DotAndLetters(part) && part < suffix
    ensures KnownSuffix(counter + part) == ""
  {
    var key := counter + part;
    forall t | t in SUFFIXES ensures !HasSuffix(key, t) {
      SuffixOfPart(key, counter, part, t, suffix);
    }
  }

  /** A known suffix cannot end inside another one: its dot would have to be the part's. */
  lemma SuffixOfPart(key: string, counter: string, part: string, t: string, suffix: string)
    requires key == counter + part && DotAndLetters(part) && part < suffix
    requires t in SUFFIXES && suffix in SUFFIXES
    ensures !HasSuffix(key, t)
  {
    assert DotAndLetters(t);
    if |t| <= |key| {
      var i := |key| - |t|;
      if |t| < |part| {
        assert key[i..][0] == part[|part| - |t|] != '.';
      } else if |t| > |part| {
        assert key[i..][|t| - |part|] == part[0] == '.' != t[|t| - |part|];
      } else {
        assert key[i..] == part;
        if part == t {
          NoSuffixInSuffix(t, suffix);
        }
      }
    }
  }

  /** When the name stored for one key of a counter is the name made of another one. Keys
      cut in front of the suffix are the same. If no suffix is cut, the full name must have
      at most 126 characters. If both are cut, they must be cut to the same, and the name
      with that part must be short enough. If only the first one is cut, the second cut of
      the name must fall exactly in front of the part; if only the second one is, the names
      always differ. */
  predicate NamesAgree(counter: string, s1: string, s2: string)
    requires counter != ""
  {
    var name, ending := |Camel(counter)|, Ending(counter);
    if |counter| >= CephKeys.KEY_SIZE - 1 then
      |FullName(Stripped(counter[..CephKeys.KEY_SIZE - 1]))| < NAME_LEN - 1
    else if Fits(counter, s1) && Fits(counter, s2) then name + |ending| < NAME_LEN - 1
    else if Fits(counter, s2) then ending == "" && name == NAME_LEN - 2
    else !Fits(counter, s1) && Part(counter, s1) == Part(counter, s2) && name + |Part(counter, s2)| < NAME_LEN - 1
  }

  /** The name that the schema stores for a counter below a section, under one key, is the
      one that the data brings under another key, exactly in these cases. */
  lemma SchemaNameAgrees(counter: string, s1: string, s2: string)
    requires counter != "" && Dots(counter[1..]) > 0 && s1 in SUFFIXES && s2 in SUFFIXES
    ensures StoredName(Cut(counter + s1, CephKeys.KEY_SIZE)) == DsName(Cut(counter + s2, CephKeys.KEY_SIZE))
       <==> NamesAgree(counter, s1, s2)
  {
    if |counter| >= CephKeys.KEY_SIZE - 1 {
      var cut := counter[..CephKeys.KEY_SIZE - 1];
      assert Cut(counter + s1, CephKeys.KEY_SIZE) == cut == Cut(counter + s2, CephKeys.KEY_SIZE);
      StoredIsSent(cut);
    } else {
      StrippedKey(counter, s1);
      StrippedKey(counter, s2);
      PartShape(counter, s1);
      PartShape(counter, s2);
      FullNames(counter, Part(counter, s1));
      FullNames(counter, Part(counter, s2));
      AgreeInParts(counter, if Fits(counter, s1) then "" else Part(counter, s1),
                   if Fits(counter, s2) then "" else Part(counter, s2));
      assert counter + "" == counter;
    }
  }

  /** A counter that is no latency comes under its plain key. Its name is the stored one
      exactly if the full name is short enough; or, if the counter itself ends in one of
      the suffixes, if the second cut falls exactly in front of that. */
  lemma PlainNameAgrees(counter: string)
    requires counter != "" && Dots(counter[1..]) > 0 && Fits(counter, ".type")
    ensures StoredName(counter + ".type") == DsName(counter) <==>
              if Stripped(counter) == counter then |FullName(counter)| < NAME_LEN - 1
              else Ending(Stripped(counter)) == "" && |Camel(Stripped(counter))| == NAME_LEN - 2
  {
    SuffixesAgree(counter, ".type");
    if Stripped(counter) == counter {
      StoredIsSent(counter + ".type");
    } else {
      LooksSuffixed(counter, Stripped(counter), KnownSuffix(counter));
    }
  }

  lemma LooksSuffixed(counter: string, base: string, part: string)
    requires counter == base + part && part in SUFFIXES && Dots(counter[1..]) > 0
    ensures Cut(Compact(counter, NAME_LEN), NAME_LEN - 1) == Compact(base, NAME_LEN)
       <==> Ending(base) == "" && |Camel(base)| == NAME_LEN - 2
  {
    SuffixShape(part);
    assert base == "" ==> counter == part;
    AgreeInParts(base, part, "");
    assert base + "" == base;
  }

  lemma SuffixShape(suffix: string)
    requires suffix in SUFFIXES
    ensures DotAndLetters(suffix) && Dots(suffix[1..]) == 0
  {
    assert DotAndLetters(suffix);
    NoDots(suffix[1..]);
  }

  lemma {:induction false} NoDots(s: string)
    requires forall i :: 0 <= i < |s| ==> s[i] != '.'
    ensures Dots(s) == 0
  {
    if s != "" {
      NoDots(s[1..]);
    }
  }

  /** The names of a counter followed by nothing or by cut suffixes. */
  lemma AgreeInParts(counter: string, p1: string, p2: string)
    requires counter != "" && (p1 == "" || DotAndLetters(p1)) && (p2 == "" || DotAndLetters(p2))
    requires p1 != "" && p2 != "" ==> |p1| == |p2|
    ensures var name, ending := |Camel(counter)|, Ending(counter);
            Cut(Compact(counter + p1, NAME_LEN), NAME_LEN - 1) == Compact(counter + p2, NAME_LEN) <==>
              if p2 == "" then
                if p1 == "" then name + |ending| < NAME_LEN - 1 else ending == "" && name == NAME_LEN - 2
              else p1 == p2 && name + |p2| < NAME_LEN - 1
  {
    assert counter + "" == counter;
    FullNames(counter, ".");
    if p1 == "" && p2 == "" {
      CompactIsFullName(counter);
    } else if p1 == "" {
      FullNames(counter, p2);
      WholeAgainstPart(Camel(counter), Ending(counter), p2);
    } else if p2 == "" {
      FullNames(counter, p1);
      PartAgainstWhole(Camel(counter), Ending(counter), p1);
    } else {
      FullNames(counter, p1);
      FullNames(counter, p2);
      PartAgainstPart(Camel(counter), p1, p2);
    }
  }

  /** Compact, from the camel-cased stem and the ending. */
  function Composed(name: string, ending: string): string
    requires |ending| <= 5
  {
    var base := Cut(name, NAME_LEN);
    if ending == "" then base else base[..Min(|base|, NAME_LEN - (|ending| + 1))] + ending
  }

  lemma WholeAgainstPart(name: string, ending: string, part: string)
    requires DotAndLetters(part) && ending in {"", "Plus", "Minus"}
    ensures Cut(Composed(name, ending), NAME_LEN - 1) != Cut(name + part, NAME_LEN)
  {
    var stored, sent := Cut(Composed(name, ending), NAME_LEN - 1), Cut(name + part, NAME_LEN);
    if |stored| == |sent| {
      assert sent == name + part && sent[|name|] == '.';
      assert stored[|name|] != '.';
    }
  }

  lemma PartAgainstWhole(name: string, ending: string, part: string)
    requires DotAndLetters(part) && ending in {"", "Plus", "Minus"}
    ensures Cut(Cut(name + part, NAME_LEN), NAME_LEN - 1) == Composed(name, ending)
       <==> ending == "" && |name| == NAME_LEN - 2
  {
    var stored, sent := Cut(Cut(name + part, NAME_LEN), NAME_LEN - 1), Composed(name, ending);
    if ending == "" && |name| == NAME_LEN - 2 {
      assert stored == name == sent;
    } else if |stored| == |sent| && ending != "" {
      assert |name| + |ending| <= NAME_LEN - 2;
      assert stored[|name|] == '.' && sent[|name|] == ending[0];
    }
  }

  lemma PartAgainstPart(name: string, p1: string, p2: string)
    requires p1 != "" && |p1| == |p2|
    ensures Cut(Cut(name + p1, NAME_LEN), NAME_LEN - 1) == Cut(name + p2, NAME_LEN)
       <==> p1 == p2 && |name| + |p2| < NAME_LEN - 1
  {
    if |name| + |p2| < NAME_LEN - 1 {
      assert (name + p1)[|name|..] == p1 && (name + p2)[|name|..] == p2;
    }
  }

  /** A counter of 127 characters: the schema stores one less, and no data entry has that
      name. Nothing is cut but the name. */
  lemma LongNameLost(suffix: string)
    requires suffix in SUFFIXES
    ensures var counter := LongName();
            && |counter + suffix| < CephKeys.KEY_SIZE
            && |DsName(counter + suffix)| == 127 && |StoredName(counter + ".type")| == 126
  {
    var counter := LongName();
    assert counter[1..][0] == '.';
    SuffixesAgree(counter, suffix);
    SuffixesAgree(counter, ".type");
    LongNameFull();
    CompactIsFullName(counter);
  }

  /** "a." and 125 times x. */
  function LongName(): (r: string)
    ensures |r| == NAME_LEN - 1 && r[0] == 'a' && r[1] == '.'
    ensures forall i :: 1 <= i < |r| ==> !Delimiter(r[i])
  {
    "a." + seq(NAME_LEN - 3, _ => 'x')
  }

  lemma LongNameFull()
    ensures |FullName(LongName())| == NAME_LEN - 1
  {
    var s := LongName();
    CamelIsCharwise(s);
    CharsInToken(s[1..], |s| - 1);
    assert s[1..][|s| - 1..] == "";
  }

  function Underscores(n: nat): (r: string)
    ensures |r| == n && forall i :: 0 <= i < n ==> r[i] == '_'
  {
    seq(n, _ => '_')
  }

  lemma {:induction false} DelimitersVanish(n: nat, s: string, first: bool)
    ensures CamelChars(Underscores(n) + s, first) == CamelChars(s, first || n > 0)
  {
    if n > 0 {
      assert (Underscores(n) + s)[1..] == Underscores(n - 1) + s;
      DelimitersVanish(n - 1, s, true);
    } else {
      assert Underscores(0) + s == s;
    }
  }

  /** A counter with a short name and a long key. */
  function LongKey(n: nat): (r: string)
    requires 0 < n
    ensures |r| == n + 2 && r[0] == 'a' && r[1] == '.' && r[|r| - 1] == '_'
  {
    "a." + Underscores(n)
  }

  lemma TailKept(tail: string)
    requires tail == "" || tail == ".typ"
    ensures CamelChars(tail, true) == tail
  {
    if tail != "" {
      assert tail[1..] == "typ";
      CharsInToken("typ", 3);
    }
  }

  lemma LongKeyName(n: nat, tail: string)
    requires 0 < n && (tail == "" || tail == ".typ")
    ensures Compact(LongKey(n) + tail, NAME_LEN) == "A." + tail
  {
    var s := LongKey(n) + tail;
    CamelIsCharwise(s);
    assert s[1..][1..] == Underscores(n) + tail;
    DelimitersVanish(n, tail, false);
    TailKept(tail);
    assert CamelChars(s, true) == ['A'] + (['.'] + tail);
    assert s[|s| - 1] == if tail == "" then '_' else 'p';
  }

  lemma LongKeyCut(n: nat)
    requires n + 7 == CephKeys.KEY_SIZE
    ensures DsName(Cut(LongKey(n) + ".type", CephKeys.KEY_SIZE)) == "A..typ"
  {
    var cut := LongKey(n) + ".typ";
    assert Cut(LongKey(n) + ".type", CephKeys.KEY_SIZE) == cut;
    assert cut[|cut| - 1] == 'p';
    NoSuffixEndsIn(cut);
    LongKeyName(n, ".typ");
  }

  lemma LongKeyFits(n: nat)
    requires n + 7 == CephKeys.KEY_SIZE
    ensures DsName(Cut(LongKey(n) + ".sum", CephKeys.KEY_SIZE)) == "A."
  {
    assert LongKey(n)[1..][0] == '.';
    CutKeys(LongKey(n), ".sum");
    LongKeyName(n, "");
    assert LongKey(n) + "" == LongKey(n) && "A." + "" == "A.";
  }

  /** A counter whose schema entry and data entries end up with different names: the key
      of its type is cut inside the suffix, and the key of its sum fits. */
  lemma CutKeysDiffer()
    ensures DsName(Cut(LongKey(249) + ".type", CephKeys.KEY_SIZE)) == "A..typ"
    ensures DsName(Cut(LongKey(249) + ".sum", CephKeys.KEY_SIZE)) == "A."
  {
    LongKeyCut(249);
    LongKeyFits(249);
  }

  lemma NoSuffixEndsIn(key: string)
    requires key != "" && key[|key| - 1] == 'p'
    ensures KnownSuffix(key) == ""
  {
    forall t | t in SUFFIXES ensures !HasSuffix(key, t) {
      assert |t| <= |key| ==> key[|key| - |t|..][|t| - 1] == 'p';
    }
  }

  lemma DotInFront(suffix: string)
    requires suffix in SUFFIXES
    ensures suffix != "" && Dots(suffix) > 0
  {
  }

  /** No key ends in two of the suffixes. */
  lemma OneSuffix(key: string, suffix: string)
    requires suffix in SUFFIXES && HasSuffix(key, suffix)
    ensures forall t :: t in SUFFIXES && HasSuffix(key, t) ==> t == suffix
  {
    forall t | t in SUFFIXES && HasSuffix(key, t) ensures t == suffix {
      assert key[|key| - |suffix|..][|suffix| - 1] == key[|key| - 1] == key[|key| - |t|..][|t| - 1];
      assert key[|key| - |suffix|..][|suffix| - 3] == key[|key| - 3] == key[|key| - |t|..][|t| - 3];
    }
  }
}
