/** cfg_load_file as it is written: one line buffer, cut up in place by writing NULs into it. */
module IniReader {
  import opened Text
  import opened Config
  import opened Ini

  /** A C string without its NUL lies in a[begin..end], and the NUL follows it. */
  predicate IsString(a: seq<char>, begin: nat, end: nat) {
    begin <= end < |a| && a[end] == NUL && Free(a[begin..end], {NUL})
  }

  /** strlen, as the position of the NUL. */
  method End(line: array<char>, begin: nat) returns (end: nat)
    requires begin <= line.Length && NUL in line[begin..]
    ensures IsString(line[..], begin, end) && end - begin == Find(line[begin..], {NUL})
  {
    end := begin;
    while line[end] != NUL
      invariant begin <= end < line.Length && NUL in line[end..]
      invariant Free(line[begin..end], {NUL})
      decreases line.Length - end
    {
      assert line[end..] == [line[end]] + line[end + 1..];
      assert line[begin..end + 1] == line[begin..end] + [line[end]];
      end := end + 1;
    }
    assert line[..][begin..end] == line[begin..end] == line[begin..][..end - begin];
    FindIs(line[begin..], {NUL}, end - begin);
  }

  /** strpbrk and strchr: the first character of cs in the string, or its end. */
  method Search(line: array<char>, begin: nat, end: nat, cs: set<char>) returns (at: nat)
    requires IsString(line[..], begin, end)
    ensures begin <= at <= end && at - begin == Find(line[begin..end], cs)
    ensures at < end ==> line[at] in cs
  {
    at := begin;
    while at < end && line[at] !in cs
      invariant begin <= at <= end && Free(line[begin..at], cs)
    {
      assert line[begin..at + 1] == line[begin..at] + [line[at]];
      at := at + 1;
    }
    assert line[begin..end][..at - begin] == line[begin..at];
    FindIs(line[begin..end], cs, at - begin);
  }

  lemma SkipOne(a: seq<char>, b: nat, end: nat)
    requires b < end <= |a| && IsSpace(a[b])
    ensures TrimLeft(a[b..end]) == TrimLeft(a[b + 1..end])
  {
    assert a[b..end][1..] == a[b + 1..end];
  }

  method SkipSpace(line: array<char>, begin: nat, end: nat) returns (b: nat)
    requires IsString(line[..], begin, end)
    ensures begin <= b && IsString(line[..], b, end) && line[b..end] == TrimLeft(line[begin..end])
  {
    b := begin;
    while b < end && IsSpace(line[b])
      invariant begin <= b <= end && TrimLeft(line[b..end]) == TrimLeft(line[begin..end])
    {
      SkipOne(line[..], b, end);
      assert line[..][b..end] == line[b..end] && line[..][b + 1..end] == line[b + 1..end];
      b := b + 1;
    }
    assert line[b..end] == line[begin..end][b - begin..];
  }

  /** Writes a NUL at `at`: the string up to there is cut off, and nothing else changes. */
  method Cut(line: array<char>, begin: nat, end: nat, at: nat)
    requires IsString(line[..], begin, end) && begin <= at <= end
    modifies line
    ensures line[..] == old(line[..])[at := NUL]
    ensures IsString(line[..], begin, at) && line[begin..at] == old(line[begin..at])
  {
    line[at] := NUL;
    assert line[..][begin..at] == old(line[begin..end])[..at - begin];
  }

  /** trim_whitespace: trailing white space is overwritten, leading white space skipped. */
  method Trim(line: array<char>, begin: nat, end: nat) returns (b: nat, e: nat)
    requires IsString(line[..], begin, end)
    modifies line
    ensures begin <= b <= e <= end && IsString(line[..], b, e)
    ensures line[b..e] == Strip(old(line[begin..end]))
    ensures forall i :: 0 <= i < line.Length && (i < e || end <= i) ==> line[i] == old(line[i])
  {
    b := SkipSpace(line, begin, end);
    e := end;
    ghost var whole := line[b..end];
    while b < e && IsSpace(line[e - 1])
      invariant b <= e <= end && IsString(line[..], b, e)
      invariant forall i :: 0 <= i < line.Length && (i < e || end <= i) ==> line[i] == old(line[i])
      invariant TrimRight(line[b..e]) == TrimRight(whole)
    {
      assert line[b..e][..e - 1 - b] == line[b..e - 1];
      Cut(line, b, e, e - 1);
      e := e - 1;
    }
  }

  /** One line: leading space, comment, padding, brackets, equals sign, each cut where it stands. */
  method Parse(line: array<char>) returns (stmt: Statement)
    requires NUL in line[..]
    modifies line
    ensures stmt == ParseLine(CString(old(line[..])))
  {
    assert line[0..] == line[..];
    var end := End(line, 0);
    assert CString(line[..]) == line[0..end];
    var begin := SkipSpace(line, 0, end);
    if begin == end || line[begin] in COMMENT {
      return Nothing;
    }
    stmt := ParseUncommented(line, begin, end);
  }

  method ParseUncommented(line: array<char>, begin: nat, end: nat) returns (stmt: Statement)
    requires IsString(line[..], begin, end)
    modifies line
    ensures var t := old(line[begin..end]); stmt == ParseBody(Strip(t[..Find(t, COMMENT)]))
  {
    var comment := Search(line, begin, end, COMMENT);
    assert line[begin..end][..comment - begin] == line[begin..comment];
    Cut(line, begin, end, comment);
    var b, e := Trim(line, begin, comment);
    stmt := ParseTrimmed(line, b, e);
  }

  method ParseTrimmed(line: array<char>, begin: nat, end: nat) returns (stmt: Statement)
    requires IsString(line[..], begin, end)
    modifies line
    ensures stmt == ParseBody(old(line[begin..end]))
  {
    if begin == end {
      return Nothing;
    }
    ghost var u := line[begin..end];
    if line[begin] == '[' {
      var close := Search(line, begin, end, {']'});
      if close == end {
        return Nothing;
      }
      Cut(line, begin, end, close);
      assert line[begin + 1..close] == u[1..close - begin];
      return Section(Copied(line[begin + 1..close], SECTION_SIZE));
    }
    var equals := Search(line, begin, end, {'='});
    if equals == end {
      return Nothing;
    }
    assert line[begin..equals] == u[..equals - begin] && line[equals + 1..end] == u[equals + 1 - begin..];
    stmt := ParsePair(line, begin, equals, end);
  }

  method ParsePair(line: array<char>, begin: nat, equals: nat, end: nat) returns (stmt: Statement)
    requires IsString(line[..], begin, end) && begin <= equals < end
    modifies line
    ensures stmt == ParseEntry(old(line[begin..equals]), old(line[equals + 1..end]))
  {
    assert line[equals + 1..end] == line[begin..end][equals + 1 - begin..];
    Cut(line, begin, end, equals);
    var keyBegin, keyEnd := Trim(line, begin, equals);
    assert line[equals + 1..end] == old(line[equals + 1..end]);
    var key := line[keyBegin..keyEnd];
    var valueBegin, valueEnd := Trim(line, equals + 1, end);
    if key == "" {
      return Nothing;
    }
    return Entry(key, line[valueBegin..valueEnd]);
  }

  /** fgets, from position pos of the file. */
  method Fgets(line: array<char>, text: string, pos: nat) returns (n: nat)
    requires pos < |text| && line.Length == MAX_LINE
    modifies line
    ensures n == LineLength(text[pos..])
    ensures NUL in line[..] && CString(line[..]) == CString(text[pos..][..n])
  {
    n := LineLength(text[pos..]);
    for i := 0 to n
      invariant line[..i] == text[pos..pos + i]
    {
      line[i] := text[pos + i];
    }
    line[n] := NUL;
    var read := text[pos..pos + n];
    assert line[..n] == read == text[pos..][..n];
    var f := Find(read, {NUL});
    assert line[..][..f] == read[..f];
    assert f < n ==> line[f] == read[f];
    FindIs(line[..], {NUL}, f);
    assert line[..][n] == NUL;
  }

  /** One round of the loop: reads a line, obeys it, and says how far the file has been read. */
  method ReadLine(line: array<char>, text: string, pos: nat, st: State) returns (n: nat, next: State)
    requires pos < |text| && line.Length == MAX_LINE
    modifies line
    ensures n == LineLength(text[pos..]) && next == Obey(st, ParseLine(CString(text[pos..][..n])))
  {
    n := Fgets(line, text, pos);
    var stmt := Parse(line);
    match stmt {
      case Nothing => next := st;
      case Section(name) => next := State(name, st.cfg);
      case Entry(key, value) => next := State(st.section, HandleKey(st.section, key, value, st.cfg));
    }
  }

  lemma LoadStep(st: State, text: string, pos: nat)
    requires pos < |text|
    ensures var n := LineLength(text[pos..]);
            LoadText(st, text[pos..]) == LoadText(Obey(st, ParseLine(CString(text[pos..][..n]))), text[pos + n..])
  {
    var n := LineLength(text[pos..]);
    assert text[pos..][n..] == text[pos + n..];
  }

  /** One round, as the loop below needs it: where the rest begins, and that it leads to the same end. */
  method ReadRest(line: array<char>, text: string, pos: nat, st: State) returns (rest: nat, next: State)
    requires pos < |text| && line.Length == MAX_LINE
    modifies line
    ensures pos < rest <= |text| && LoadText(next, text[rest..]) == LoadText(st, text[pos..])
  {
    LoadStep(st, text, pos);
    var n, after := ReadLine(line, text, pos, st);
    rest, next := pos + n, after;
  }

  lemma LoadStart(st: State, text: string)
    ensures LoadText(st, text[0..]) == LoadText(st, text)
  {
    assert text[0..] == text;
  }

  lemma LoadEnd(st: State, text: string, pos: nat)
    requires pos == |text|
    ensures LoadText(st, text[pos..]) == st
  {
    assert text[pos..] == "";
  }

  method ReadLines(line: array<char>, text: string, before: State) returns (st: State)
    requires line.Length == MAX_LINE
    modifies line
    ensures st == LoadText(before, text)
  {
    st := before;
    ghost var all := LoadText(before, text);
    LoadStart(before, text);
    var pos := 0;
    while pos < |text|
      invariant 0 <= pos <= |text| && LoadText(st, text[pos..]) == all
      decreases |text| - pos
    {
      pos, st := ReadRest(line, text, pos, st);
    }
    LoadEnd(st, text, pos);
  }

  /** cfg_load_file on a file that can be opened: it never fails, and the settings are those the
      statements of its lines lead to. */
  method LoadFile(text: string, before: AppCfg) returns (cfg: AppCfg)
    ensures cfg == Load(before, text)
  {
    var line := new char[MAX_LINE];
    var st := ReadLines(line, text, State("", before));
    return st.cfg;
  }
}
