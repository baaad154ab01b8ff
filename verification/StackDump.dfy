// The loop of stackdump in crashhandler_unix.cpp that splits one line of backtrace_symbols in place:
//   file(name+offset)address
module StackDump {
  import opened Common

  // The characters from i up to the next NUL, as a reader of the pointer sees them.
  function CString(b: seq<char>, i: nat): string
    requires i <= |b|
    decreases |b| - i
  {
    if i == |b| || b[i] == '\0' then [] else [b[i]] + CString(b, i + 1)
  }

  lemma {:induction false} CStringEnds(b: seq<char>, i: nat, j: nat)
    requires i <= j < |b| && b[j] == '\0' && forall k | i <= k < j :: b[k] != '\0'
    ensures CString(b, i) == b[i..j]
    decreases j - i
  {
    if i < j {
      CStringEnds(b, i + 1, j);
    }
  }

  // ----- What a line means

  datatype Pieces = Pieces(file: string, name: string, offset: string, address: string)

  // The first c in s, or |s|.
  function First(s: string, c: char): (k: nat)
    ensures k <= |s| && c !in s[..k] && (k < |s| ==> s[k] == c)
  {
    if s == [] || s[0] == c then 0 else
    assert forall k | 1 <= k <= |s| :: s[..k] == [s[0]] + s[1..][..k - 1];
    1 + First(s[1..], c)
  }

  // One past the last c in s, or 0.
  function PastLast(s: string, c: char): (k: nat)
    ensures k <= |s| && c !in s[k..] && (k > 0 ==> s[k - 1] == c)
  {
    if s == [] then 0
    else if s[|s| - 1] == c then |s|
    else
      var t := s[..|s| - 1];
      assert forall k | 0 <= k <= |t| :: s[k..] == t[k..] + [s[|s| - 1]];
      PastLast(t, c)
  }

  // Up to the first ')', the line is cut at the last '(' and at the last '+', if they are in this order.
  function Split(s: string): Option<Pieces> {
    var end := First(s, ')');
    var t := s[..end];
    var name, offset := PastLast(t, '('), PastLast(t, '+');
    if end < |s| && 0 < name < offset then
      Some(Pieces(t[..name - 1], t[name..offset - 1], t[offset..], s[end + 1..]))
    else None
  }

  function Join(p: Pieces): string {
    p.file + "(" + p.name + "+" + p.offset + ")" + p.address
  }

  predicate WellCut(p: Pieces) {
    && ')' !in p.file && ')' !in p.name && ')' !in p.offset
    && '(' !in p.name && '(' !in p.offset
    && '+' !in p.offset
  }

  // Nothing of the line is lost.
  lemma SplitRejoins(s: string)
    ensures Split(s).Some? ==> WellCut(Split(s).value) && Join(Split(s).value) == s
  {
    hide First, PastLast;
    if Split(s).Some? {
      var end := First(s, ')');
      var t := s[..end];
      var name, offset := PastLast(t, '('), PastLast(t, '+');
      var p := Split(s).value;
      assert t == p.file + "(" + p.name + "+" + p.offset;
      assert s == t + ")" + p.address;
      assert p.offset == t[name..][offset - name..] && p.name == t[name..][..offset - 1 - name];
    }
  }

  lemma PrefixLacks(s: string, c: char, n: nat)
    requires n <= |s| && c !in s[..n]
    ensures forall k | 0 <= k < n :: s[k] != c
  {
    assert forall k | 0 <= k < n :: s[..n][k] == s[k];
  }

  lemma SuffixLacks(s: string, c: char, n: nat)
    requires n <= |s| && c !in s[n..]
    ensures forall k | n <= k < |s| :: s[k] != c
  {
    assert forall k | n <= k < |s| :: s[n..][k - n] == s[k];
  }

  lemma FirstIs(s: string, c: char, k: nat)
    requires k < |s| && s[k] == c && c !in s[..k]
    ensures First(s, c) == k
  {
    hide First;
    PrefixLacks(s, c, k);
    PrefixLacks(s, c, First(s, c));
  }

  lemma PastLastIs(s: string, c: char, k: nat)
    requires 0 < k <= |s| && s[k - 1] == c && c !in s[k..]
    ensures PastLast(s, c) == k
  {
    hide PastLast;
    SuffixLacks(s, c, k);
    SuffixLacks(s, c, PastLast(s, c));
  }

  // There is only one way to cut a line like this, and it is found whenever it exists.
  lemma CutIsUnique(s: string, p: Pieces)
    requires WellCut(p) && Join(p) == s
    ensures Split(s) == Some(p)
  {
    hide First, PastLast;
    var t := p.file + "(" + p.name + "+" + p.offset;
    var name, offset := |p.file| + 1, |p.file| + |p.name| + 2;
    assert s == t + ")" + p.address && s[..|t|] == t;
    FirstIs(s, ')', |t|);
    assert t[name..] == p.name + "+" + p.offset && t[offset..] == p.offset;
    PastLastIs(t, '(', name);
    PastLastIs(t, '+', offset);
    assert t[..name - 1] == p.file && t[name..offset - 1] == p.name && s[|t| + 1..] == p.address;
  }

  // A line is split if and only if it has the form file(name+offset)address.
  lemma SplitExactly(s: string)
    ensures Split(s).Some? <==> exists p :: WellCut(p) && Join(p) == s
  {
    SplitRejoins(s);
    forall p | WellCut(p) && Join(p) == s ensures Split(s) == Some(p) {
      CutIsUnique(s, p);
    }
  }

  // ----- The loop, in place

  // Where the pieces after the file name start in the buffer.
  datatype Pointers = Pointers(mangledName: nat, offsetBegin: nat, offsetEnd: nat)

  // The part of the loop before the break, seen from the characters read so far.
  ghost predicate Scanned(t: string, mangledName: Option<nat>, offsetBegin: Option<nat>) {
    && ')' !in t
    && PastLast(t, '(') == (if mangledName.Some? then mangledName.value + 1 else 0)
    && PastLast(t, '+') == (if offsetBegin.Some? then offsetBegin.value + 1 else 0)
  }

  lemma ScanOneMore(t: string, c: char, mangledName: Option<nat>, offsetBegin: Option<nat>)
    requires Scanned(t, mangledName, offsetBegin)
    ensures c != ')' ==>
              Scanned(t + [c], if c == '(' then Some(|t|) else mangledName, if c == '+' then Some(|t|) else offsetBegin)
  {
    assert (t + [c])[..|t|] == t;
  }

  lemma NothingScanned()
    ensures Scanned([], None, None)
  {
  }

  // The loop over the characters: where the last '(' and the last '+' before the first ')' are.
  method FindPieces(line: array<char>)
    returns (mangledName: Option<nat>, offsetBegin: Option<nat>, offsetEnd: Option<nat>)
    requires '\0' in line[..]
    ensures var s := CString(line[..], 0);
            var end := First(s, ')');
            && Scanned(s[..end], mangledName, offsetBegin)
            && offsetEnd == (if end < |s| then Some(end) else None)
            && (mangledName.Some? ==> mangledName.value < end)
            && (offsetBegin.Some? ==> offsetBegin.value < end)
  {
    hide PastLast, First, CString, Scanned;
    ghost var n := First(line[..], '\0');
    FirstInside(line[..]);
    CStringEnds(line[..], 0, n);
    ghost var s := line[..n];
    mangledName, offsetBegin, offsetEnd := None, None, None;
    var p: nat := 0;
    NothingScanned();
    assert s[..0] == [];
    while line[p] != '\0'
      invariant 0 <= p <= n && offsetEnd.None?
      invariant Scanned(s[..p], mangledName, offsetBegin)
      invariant mangledName.Some? ==> mangledName.value < p
      invariant offsetBegin.Some? ==> offsetBegin.value < p
      decreases n - p
    {
      assert s[..p + 1] == s[..p] + [s[p]] && s[p] == line[p];
      ScanOneMore(s[..p], s[p], mangledName, offsetBegin);
      if line[p] == '(' {
        mangledName := Some(p);
      } else if line[p] == '+' {
        offsetBegin := Some(p);
      } else if line[p] == ')' {
        offsetEnd := Some(p);
        break;
      }
      p := p + 1;
    }
    FirstParenthesis(s, p, mangledName, offsetBegin, offsetEnd);
  }

  method SplitLine(line: array<char>) returns (r: Option<Pointers>)
    requires '\0' in line[..]
    modifies line
    ensures r.Some? <==> Split(CString(old(line[..]), 0)).Some?
    ensures r.None? ==> line[..] == old(line[..])
    ensures r.Some? ==>
              var p := Split(CString(old(line[..]), 0)).value;
              && 0 < r.value.mangledName < r.value.offsetBegin < r.value.offsetEnd <= line.Length
              && CString(line[..], 0) == p.file
              && CString(line[..], r.value.mangledName) == p.name
              && CString(line[..], r.value.offsetBegin) == p.offset
              && CString(line[..], r.value.offsetEnd) == p.address
              && line[..] ==
                 old(line[..])[r.value.mangledName - 1 := '\0'][r.value.offsetBegin - 1 := '\0'][r.value.offsetEnd - 1 := '\0']
  {
    hide PastLast, First, CString, Split;
    ghost var was := line[..];
    var mangledName, offsetBegin, offsetEnd := FindPieces(line);
    CutAt(was, mangledName, offsetBegin, offsetEnd);
    if mangledName.None? || offsetBegin.None? || offsetEnd.None? || mangledName.value >= offsetBegin.value {
      return None;
    }
    line[mangledName.value] := '\0';
    line[offsetBegin.value] := '\0';
    line[offsetEnd.value] := '\0';
    PiecesInPlace(was, mangledName.value, offsetBegin.value, offsetEnd.value, line[..]);
    return Some(Pointers(mangledName.value + 1, offsetBegin.value + 1, offsetEnd.value + 1));
  }

  lemma FirstInside(b: seq<char>)
    requires '\0' in b
    ensures First(b, '\0') < |b|
    ensures forall k | 0 <= k < First(b, '\0') :: b[k] != '\0'
  {
    var n := First(b, '\0');
    assert b[..|b|] == b;
    assert forall k | 0 <= k < n :: b[..n][k] == b[k];
  }

  lemma FirstParenthesis(s: string, p: nat, mangledName: Option<nat>, offsetBegin: Option<nat>, offsetEnd: Option<nat>)
    requires p <= |s| && Scanned(s[..p], mangledName, offsetBegin)
    requires if offsetEnd.Some? then offsetEnd.value == p && p < |s| && s[p] == ')' else p == |s|
    ensures First(s, ')') == p
  {
    hide PastLast;
    if offsetEnd.Some? {
      FirstIs(s, ')', p);
    } else {
      assert s[..p] == s;
    }
  }

  // What the three marks say about the line.
  lemma CutAt(was: seq<char>, mangledName: Option<nat>, offsetBegin: Option<nat>, offsetEnd: Option<nat>)
    requires '\0' in was
    requires var s := CString(was, 0);
             var end := First(s, ')');
             && Scanned(s[..end], mangledName, offsetBegin)
             && offsetEnd == (if end < |s| then Some(end) else None)
    ensures var n := First(was, '\0');
            var s := CString(was, 0);
            && n < |was| && s == was[..n] && (forall k | 0 <= k < n :: was[k] != '\0') && was[n] == '\0'
            && if mangledName.None? || offsetBegin.None? || offsetEnd.None? || mangledName.value >= offsetBegin.value
               then Split(s).None?
               else
                 var m, b, e := mangledName.value, offsetBegin.value, offsetEnd.value;
                 Split(s) == Some(Pieces(s[0..m], s[m + 1..b], s[b + 1..e], s[e + 1..|s|]))
  {
    hide First, PastLast, CString;
    var n := First(was, '\0');
    FirstInside(was);
    CStringEnds(was, 0, n);
    var s := was[..n];
    var end := First(s, ')');
    if end < |s| {
      if mangledName.Some? && offsetBegin.Some? && mangledName.value < offsetBegin.value {
        SliceSlices(s, mangledName.value, offsetBegin.value, end);
      }
    }
  }

  lemma SliceSlices(s: string, m: nat, b: nat, e: nat)
    requires m < b < e < |s|
    ensures var t := s[..e];
            t[..m] == s[0..m] && t[m + 1..b] == s[m + 1..b] && t[b + 1..] == s[b + 1..e] && s[e + 1..] == s[e + 1..|s|]
  {
  }

  // After the three writes each pointer reads its piece.
  lemma PiecesInPlace(was: seq<char>, m: nat, b: nat, e: nat, now: seq<char>)
    requires var n := First(was, '\0');
             m < b < e < n < |was| && was[n] == '\0' && forall k | 0 <= k < n :: was[k] != '\0'
    requires now == was[m := '\0'][b := '\0'][e := '\0']
    ensures var s := was[..First(was, '\0')];
            && CString(now, 0) == s[0..m]
            && CString(now, m + 1) == s[m + 1..b]
            && CString(now, b + 1) == s[b + 1..e]
            && CString(now, e + 1) == s[e + 1..|s|]
  {
    hide First, CString;
    var n := First(was, '\0');
    var s := was[..n];
    CStringEnds(now, 0, m);
    CStringEnds(now, m + 1, b);
    CStringEnds(now, b + 1, e);
    CStringEnds(now, e + 1, n);
    SamePart(s, now, 0, m);
    SamePart(s, now, m + 1, b);
    SamePart(s, now, b + 1, e);
    SamePart(s, now, e + 1, n);
  }

  lemma SamePart(s: string, now: seq<char>, i: nat, j: nat)
    requires i <= j <= |s| <= |now| && forall k | i <= k < j :: now[k] == s[k]
    ensures now[i..j] == s[i..j]
  {
  }
}
