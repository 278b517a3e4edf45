// The symbol records the code generator reads (4/codegen.c): the
// cross-reference text is a run of lines `key|label|type|...`, split by
// parseSymbols into (key, label, type) triples, and getSymbol returns the
// first record with a given key. getArraySize and isArray read the type text.
module SymbolRecords {
  import opened Wrappers
  import opened Chars

  /** struct Symbol; the `addr` field is never filled in and is left out. */
  datatype Symbol = Symbol(key: string, lbl: string, ty: string)

  /** The text before the first `c` of `s` and the text after it; None when
      `s` holds no `c` (where the C loop `while (*p != c) p++` runs off the
      buffer). */
  function SplitAt(s: string, c: char): Option<(string, string)>
  {
    if s == [] then None
    else if s[0] == c then Some(([], s[1..]))
    else match SplitAt(s[1..], c)
      case None => None
      case Some(p) => Some(([s[0]] + p.0, p.1))
  }

  /** A text without `c` does not split. */
  lemma {:induction false} SplitAtNone(s: string, c: char)
    requires c !in s
    ensures SplitAt(s, c).None?
  {
    if s != [] {
      assert c !in s[1..];
      SplitAtNone(s[1..], c);
    }
  }

  /** The split is at the first `c`: text free of `c`, then `c`, splits there. */
  lemma {:induction false} SplitAtConcat(a: string, c: char, b: string)
    requires c !in a
    ensures SplitAt(a + [c] + b, c) == Some((a, b))
  {
    if a == [] {
      assert a + [c] + b == [c] + b;
    } else {
      assert (a + [c] + b)[1..] == a[1..] + [c] + b;
      SplitAtConcat(a[1..], c, b);
      assert (a + [c] + b)[0] == a[0] != c;
      assert [a[0]] + a[1..] == a;
    }
  }

  /** The first record of `syms` whose key is `key`: getSymbol's result, with
      None for the null symbol. */
  function Lookup(syms: seq<Symbol>, key: string): (r: Option<Symbol>)
  {
    if syms == [] then None else if syms[0].key == key then Some(syms[0]) else Lookup(syms[1..], key)
  }

  /** Lookup finds a record exactly when one has the key, and then it is the
      first one. */
  lemma {:induction false} LookupFirst(syms: seq<Symbol>, key: string)
    ensures Lookup(syms, key).None? <==> forall i :: 0 <= i < |syms| ==> syms[i].key != key
    ensures Lookup(syms, key).Some? ==>
      exists i :: 0 <= i < |syms| && syms[i] == Lookup(syms, key).value && syms[i].key == key &&
                  forall j :: 0 <= j < i ==> syms[j].key != key
  {
    if syms != [] && syms[0].key != key {
      LookupFirst(syms[1..], key);
      if Lookup(syms[1..], key).Some? {
        var i :| 0 <= i < |syms[1..]| && syms[1..][i] == Lookup(syms[1..], key).value && syms[1..][i].key == key &&
                 forall j :: 0 <= j < i ==> syms[1..][j].key != key;
        assert syms[i + 1] == syms[1..][i];
        assert forall j :: 0 <= j < i + 1 ==> syms[j].key != key by {
          forall j | 0 <= j < i + 1 ensures syms[j].key != key {
            if j > 0 { assert syms[j] == syms[1..][j - 1]; }
          }
        }
      } else {
        assert forall i :: 0 <= i < |syms| ==> syms[i].key != key by {
          forall i | 0 <= i < |syms| ensures syms[i].key != key {
            if i > 0 { assert syms[i] == syms[1..][i - 1]; }
          }
        }
      }
    }
  }

  /** getSymbol: the records are searched from the first one. */
  method GetSymbol(syms: seq<Symbol>, key: string) returns (r: Option<Symbol>)
    ensures r == Lookup(syms, key)
  {
    var i := 0;
    while i < |syms|
      invariant 0 <= i <= |syms| && Lookup(syms[i..], key) == Lookup(syms, key)
    {
      if syms[i].key == key {
        return Some(syms[i]);
      }
      assert syms[i..][1..] == syms[i + 1..];
      i := i + 1;
    }
    return None;
  }

  /** One input line as the cross-reference text holds it: the three fields
      the generator reads, then the rest of the line. */
  datatype Record = Record(sym: Symbol, rest: string)

  /** The fields hold no separator and the rest no line end. */
  predicate WellFormed(r: Record)
  {
    '|' !in r.sym.key && '|' !in r.sym.lbl && '|' !in r.sym.ty && '\n' !in r.rest
  }

  function RecordText(r: Record): string
  {
    r.sym.key + "|" + r.sym.lbl + "|" + r.sym.ty + "|" + r.rest + "\n"
  }

  function RecordsText(rs: seq<Record>): string
  {
    if rs == [] then "" else RecordText(rs[0]) + RecordsText(rs[1..])
  }

  function Syms(rs: seq<Record>): (s: seq<Symbol>)
    ensures |s| == |rs| && forall i :: 0 <= i < |rs| ==> s[i] == rs[i].sym
  {
    if rs == [] then [] else [rs[0].sym] + Syms(rs[1..])
  }

  /** One record of parseSymbols at the start of `s`, and the text after its
      line end. */
  function ParseRecord(s: string): Option<(Symbol, string)>
  {
    match SplitAt(s, '|')
    case None => None
    case Some(k) => AfterKey(k.0, k.1)
  }

  /** The rest of a record once its key is read. */
  function AfterKey(key: string, s: string): Option<(Symbol, string)>
  {
    match SplitAt(s, '|')
    case None => None
    case Some(l) => AfterLabel(key, l.0, l.1)
  }

  /** The rest of a record once its key and label are read. */
  function AfterLabel(key: string, lbl: string, s: string): Option<(Symbol, string)>
  {
    match SplitAt(s, '|')
    case None => None
    case Some(t) => AfterType(Symbol(key, lbl, t.0), t.1)
  }

  /** The rest of a record once its three fields are read: up to the line end. */
  function AfterType(sym: Symbol, s: string): Option<(Symbol, string)>
  {
    match SplitAt(s, '\n')
    case None => None
    case Some(e) => Some((sym, e.1))
  }

  /** parseSymbols: `n` records read one after the other (none when `n` is
      not positive); None when the text runs out first. */
  function ParseRecords(s: string, n: int): Option<seq<Symbol>>
    decreases n
  {
    if n <= 0 then Some([])
    else match ParseRecord(s)
      case None => None
      case Some(p) =>
        match ParseRecords(p.1, n - 1)
        case None => None
        case Some(rest) => Some([p.0] + rest)
  }

  /** A well-formed line reads back as its three fields. */
  lemma ParseRecordOfText(r: Record, tail: string)
    requires WellFormed(r)
    ensures ParseRecord(RecordText(r) + tail) == Some((r.sym, tail))
  {
    var k := r.sym.key;
    var l := r.sym.lbl;
    var t := r.sym.ty;
    var e := r.rest;
    assert RecordText(r) + tail == k + ['|'] + (l + ['|'] + (t + ['|'] + (e + ['\n'] + tail)));
    SplitAtConcat(k, '|', l + ['|'] + (t + ['|'] + (e + ['\n'] + tail)));
    SplitAtConcat(l, '|', t + ['|'] + (e + ['\n'] + tail));
    SplitAtConcat(t, '|', e + ['\n'] + tail);
    SplitAtConcat(e, '\n', tail);
  }

  /** Round trip: the text of well-formed records, whatever follows it, parses
      back to their symbols when exactly that many are read. */
  lemma {:induction false} ParseRecordsOfText(rs: seq<Record>, tail: string)
    requires forall i :: 0 <= i < |rs| ==> WellFormed(rs[i])
    ensures ParseRecords(RecordsText(rs) + tail, |rs|) == Some(Syms(rs))
  {
    if rs != [] {
      assert RecordsText(rs) + tail == RecordText(rs[0]) + (RecordsText(rs[1..]) + tail);
      ParseRecordOfText(rs[0], RecordsText(rs[1..]) + tail);
      ParseRecordsOfText(rs[1..], tail);
    }
  }

  /** The first `c` at or after `p`, or |s| when there is none. */
  method FindChar(s: string, p: nat, c: char) returns (q: nat)
    requires p <= |s|
    ensures p <= q <= |s| && (forall i :: p <= i < q ==> s[i] != c) && (q < |s| ==> s[q] == c)
  {
    q := p;
    while q < |s| && s[q] != c
      invariant p <= q <= |s| && forall i :: p <= i < q ==> s[i] != c
    {
      q := q + 1;
    }
  }

  /** What FindChar found, as a split of the text from `p`. */
  lemma SplitAtFound(s: string, p: nat, q: nat, c: char)
    requires p <= q <= |s| && (forall i :: p <= i < q ==> s[i] != c) && (q < |s| ==> s[q] == c)
    ensures SplitAt(s[p..], c) == if q == |s| then None else Some((s[p..q], s[q + 1..]))
  {
    if q == |s| {
      assert c !in s[p..];
      SplitAtNone(s[p..], c);
    } else {
      assert s[p..] == s[p..q] + [c] + s[q + 1..];
      SplitAtConcat(s[p..q], c, s[q + 1..]);
    }
  }

  /** `syms` followed by the records of `r`, if there are any. */
  function Then(syms: seq<Symbol>, r: Option<seq<Symbol>>): Option<seq<Symbol>>
  {
    if r.None? then None else Some(syms + r.value)
  }

  /** The text from `p` up to the next `c`, and the position after that `c`. */
  method ReadField(buf: string, p: nat, c: char) returns (found: bool, field: string, next: nat)
    requires p <= |buf|
    ensures found ==> p < next <= |buf| && SplitAt(buf[p..], c) == Some((field, buf[next..]))
    ensures !found ==> SplitAt(buf[p..], c).None?
  {
    var q := FindChar(buf, p, c);
    SplitAtFound(buf, p, q, c);
    if q == |buf| {
      return false, "", p;
    }
    return true, buf[p..q], q + 1;
  }

  /** One line of parseSymbols from position `p`: ok when its three `|` and
      its line end are found, `next` then being the position after it. */
  method ParseSymbolAt(buf: string, p: nat) returns (ok: bool, sym: Symbol, next: nat)
    requires p <= |buf|
    ensures ok ==> p < next <= |buf| && ParseRecord(buf[p..]) == Some((sym, buf[next..]))
    ensures !ok ==> ParseRecord(buf[p..]).None?
  {
    sym, next := Symbol("", "", ""), p;
    var found, key, lbl, ty, rest;
    found, key, next := ReadField(buf, p, '|');
    if !found { return false, sym, next; }
    found, lbl, next := ReadField(buf, next, '|');
    if !found { return false, sym, next; }
    found, ty, next := ReadField(buf, next, '|');
    if !found { return false, sym, next; }
    sym := Symbol(key, lbl, ty);
    found, rest, next := ReadField(buf, next, '\n');
    if !found { return false, sym, next; }
    return true, sym, next;
  }

  /** parseSymbols: a pointer walks the text, cutting each line at its first
      three `|` and skipping to the line end. */
  method ParseSymbols(buf: string, lineCount: int) returns (r: Option<seq<Symbol>>)
    ensures r == ParseRecords(buf, lineCount)
  {
    var syms: seq<Symbol> := [];
    var p := 0;
    var i := 0;
    assert buf[p..] == buf;
    assert ParseRecords(buf, lineCount).Some? ==> [] + ParseRecords(buf, lineCount).value == ParseRecords(buf, lineCount).value;
    while i < lineCount
      invariant 0 <= p <= |buf| && 0 <= i
      invariant ParseRecords(buf, lineCount) == Then(syms, ParseRecords(buf[p..], lineCount - i))
      decreases lineCount - i
    {
      var ok, sym, next := ParseSymbolAt(buf, p);
      if !ok { return None; }
      ghost var rest := ParseRecords(buf[next..], lineCount - i - 1);
      assert ParseRecords(buf[p..], lineCount - i) == Then([sym], rest);
      assert rest.Some? ==> syms + ([sym] + rest.value) == (syms + [sym]) + rest.value;
      syms := syms + [sym];
      p := next;
      i := i + 1;
    }
    assert syms + [] == syms;
    return Some(syms);
  }

  /** isspace in the "C" locale. */
  predicate IsSpace(c: char)
  {
    c == ' ' || c == '\t' || c == '\n' || c == '\U{000B}' || c == '\U{000C}' || c == '\r'
  }

  /** The longest prefix of digits. */
  function LeadingDigits(s: string): (d: string)
    ensures AllDigits(d) && d <= s && (|d| < |s| ==> !IsDigit(s[|d|]))
  {
    if s != [] && IsDigit(s[0]) then [s[0]] + LeadingDigits(s[1..]) else []
  }

  function SkipSpaces(s: string): string
  {
    if s != [] && IsSpace(s[0]) then SkipSpaces(s[1..]) else s
  }

  /** atoi: blanks, an optional sign, then the leading digits; overflow is not
      modelled. */
  function Atoi(s: string): int
  {
    var u := SkipSpaces(s);
    if |u| > 0 && u[0] == '-' then 0 - DecimalValue(LeadingDigits(u[1..])) as int
    else if |u| > 0 && u[0] == '+' then DecimalValue(LeadingDigits(u[1..]))
    else DecimalValue(LeadingDigits(u))
  }

  /** A digit string's leading digits are the whole string. */
  lemma {:induction false} LeadingDigitsOfDigits(s: string)
    requires AllDigits(s)
    ensures LeadingDigits(s) == s
  {
    if s != [] {
      LeadingDigitsOfDigits(s[1..]);
    }
  }

  /** atoi reads back what %d printed for a non-negative number. */
  lemma AtoiOfNatToString(n: nat)
    ensures Atoi(NatToString(n)) == n
  {
    var d := NatToString(n);
    assert IsDigit(d[0]);
    LeadingDigitsOfDigits(d);
    DecimalValueOfNatToString(n);
  }

  /** getArraySize: the number between the first `[` and the next `]`, read
      by atoi. None where the C code fails: no `[` (strchr gives NULL), no
      `]` after it, or 64 characters or more between them (the local
      buffer holds 63 and the terminator). */
  function ArraySize(t: string): Option<int>
  {
    match SplitAt(t, '[')
    case None => None
    case Some(a) =>
      match SplitAt(a.1, ']')
      case None => None
      case Some(b) => if |b.0| >= 64 then None else Some(Atoi(b.0))
  }

  /** The array type text the cross-reference table prints,
      `array[N]of<type>`, gives its size back. */
  lemma ArraySizeOfArrayText(n: nat, elem: string)
    requires |NatToString(n)| < 64
    ensures ArraySize("array[" + NatToString(n) + "]of" + elem) == Some(n)
  {
    var d := NatToString(n);
    assert '[' !in d && ']' !in d by {
      assert forall i :: 0 <= i < |d| ==> IsDigit(d[i]);
    }
    assert "array[" + d + "]of" + elem == "array" + ['['] + (d + [']'] + ("of" + elem));
    SplitAtConcat("array", '[', d + [']'] + ("of" + elem));
    SplitAtConcat(d, ']', "of" + elem);
    AtoiOfNatToString(n);
  }

  /** getArraySize, walking the text with a pointer. */
  method GetArraySize(t: string) returns (r: Option<int>)
    ensures r == ArraySize(t)
  {
    var p := FindChar(t, 0, '[');
    SplitAtFound(t, 0, p, '[');
    assert t[0..] == t;
    if p == |t| { return None; }
    var q := FindChar(t, p + 1, ']');
    SplitAtFound(t, p + 1, q, ']');
    if q == |t| { return None; }
    if q - (p + 1) >= 64 { return None; }
    return Some(Atoi(t[p + 1..q]));
  }

  /** isArray: the type text starts with `a`. An empty text starts with the
      terminator and is not an array. */
  predicate IsArray(s: Symbol)
    ensures IsArray(s) <==> "a" <= s.ty
    ensures s.ty == "integer" || s.ty == "char" || s.ty == "boolean" ==> !IsArray(s)
  {
    |s.ty| > 0 && s.ty[0] == 'a'
  }

  /** Of the type texts the cross-reference table prints, exactly the array
      ones count as arrays. */
  lemma IsArrayOfTypeText(key: string, lbl: string, n: nat, elem: string, params: string)
    ensures IsArray(Symbol(key, lbl, "array[" + NatToString(n) + "]of" + elem))
    ensures !IsArray(Symbol(key, lbl, "integer")) && !IsArray(Symbol(key, lbl, "char"))
    ensures !IsArray(Symbol(key, lbl, "boolean")) && !IsArray(Symbol(key, lbl, "procedure" + params))
  {
  }
}
