/** Go's strings.TrimSpace and strings.Fields, on ASCII bytes. */
module Text {
  import opened Chars

  function TrimLeft(s: string): string { if s != "" && IsSpace(s[0]) then TrimLeft(s[1..]) else s }

  function TrimRight(s: string): string { if s != "" && IsSpace(s[|s| - 1]) then TrimRight(s[..|s| - 1]) else s }

  function TrimSpace(s: string): string { TrimRight(TrimLeft(s)) }

  lemma NoSpaceAtEnds(s: string)
    requires s != "" && !IsSpace(s[0]) && !IsSpace(s[|s| - 1])
    ensures TrimSpace(s) == s && TrimSpace(s + " ") == s
  {
    var t := s + " ";
    assert t[..|t| - 1] == s;
  }

  predicate IsWord(s: string) { s != "" && forall c | c in s :: !IsSpace(c) }

  // Length of the run of non-space characters s starts with.
  function WordLength(s: string): (k: nat)
    ensures k <= |s| && (forall i | 0 <= i < k :: !IsSpace(s[i])) && (k < |s| ==> IsSpace(s[k]))
  {
    if s == "" || IsSpace(s[0]) then 0 else 1 + WordLength(s[1..])
  }

  function Fields(s: string): (words: seq<string>)
    ensures forall w | w in words :: IsWord(w)
    decreases |s|
  {
    if s == "" then []
    else if IsSpace(s[0]) then Fields(s[1..])
    else var k := WordLength(s); [s[..k]] + Fields(s[k..])
  }

  // s without its whitespace.
  function Strip(s: string): string {
    if s == "" then "" else (if IsSpace(s[0]) then "" else [s[0]]) + Strip(s[1..])
  }

  function Concat(parts: seq<string>): string {
    if parts == [] then "" else parts[0] + Concat(parts[1..])
  }

  lemma {:induction false} StripAppend(s: string, t: string)
    ensures Strip(s + t) == Strip(s) + Strip(t)
  {
    hide IsSpace;
    if s == "" {
      assert s + t == t;
    } else {
      StripAppend(s[1..], t);
      assert (s + t)[1..] == s[1..] + t;
      var first := if IsSpace(s[0]) then "" else [s[0]];
      assert Strip(s + t) == first + Strip((s + t)[1..]);
      assert first + (Strip(s[1..]) + Strip(t)) == first + Strip(s[1..]) + Strip(t);
    }
  }

  lemma {:induction false} StripWord(s: string)
    requires forall i | 0 <= i < |s| :: !IsSpace(s[i])
    ensures Strip(s) == s
  {
    if s != "" {
      StripWord(s[1..]);
      assert s == [s[0]] + s[1..];
    }
  }

  lemma {:induction false} ConcatAppend(a: seq<string>, b: seq<string>)
    ensures Concat(a + b) == Concat(a) + Concat(b)
  {
    if a == [] {
      assert a + b == b;
    } else {
      ConcatAppend(a[1..], b);
      assert (a + b)[1..] == a[1..] + b;
    }
  }

  // The words hold every character that is not whitespace, in order.
  lemma {:induction false} FieldsKeepAll(s: string)
    ensures Concat(Fields(s)) == Strip(s)
    decreases |s|
  {
    if s != "" {
      if IsSpace(s[0]) {
        FieldsKeepAll(s[1..]);
      } else {
        var k := WordLength(s);
        FieldsKeepAll(s[k..]);
        StripWord(s[..k]);
        StripAppend(s[..k], s[k..]);
        assert s == s[..k] + s[k..];
      }
    }
  }

  lemma {:induction false} FieldsOfBlank(s: string)
    ensures Fields(s) == [] <==> forall i | 0 <= i < |s| :: IsSpace(s[i])
    decreases |s|
  {
    if s != "" && IsSpace(s[0]) {
      FieldsOfBlank(s[1..]);
      forall i | 0 < i < |s| ensures s[i] == s[1..][i - 1] {}
    }
  }
}
