/** The corpus of descriptor URLs read from the URL-list file at test start. */
module Corpus {
  import opened Strings
  import opened Iiif

  /** The line with every newline character removed. */
  function StripNewlines(line: string): string {
    RemoveAll(line, '\n')
  }

  /** The loader keeps a stripped line exactly when it ends with /info.json. */
  predicate Accepted(url: string) {
    EndsWith(url, InfoSuffix)
  }

  /** The entries kept from the lines of the file, in file order. */
  function Kept(lines: seq<string>): (kept: seq<string>)
    ensures |kept| <= |lines|
    ensures forall i :: 0 <= i < |kept| ==> Accepted(kept[i]) && '\n' !in kept[i]
  {
    if lines == [] then []
    else
      var url := StripNewlines(lines[|lines| - 1]);
      Kept(lines[..|lines| - 1]) + (if Accepted(url) then [url] else [])
  }

  /** One more line read: the kept entries grow by that line when it is accepted. */
  lemma KeptNext(lines: seq<string>, i: nat)
    requires i < |lines|
    ensures Kept(lines[..i + 1])
            == Kept(lines[..i]) + (if Accepted(StripNewlines(lines[i])) then [StripNewlines(lines[i])] else [])
  {
    assert lines[..i + 1][..i] == lines[..i];
  }

  /** Keeping distributes over concatenation of files, so the kept entries keep the file's order. */
  lemma {:induction false} KeptAppend(a: seq<string>, b: seq<string>)
    ensures Kept(a + b) == Kept(a) + Kept(b)
    decreases |b|
  {
    if b != [] {
      var b' := b[..|b| - 1];
      assert (a + b)[..|a + b| - 1] == a + b';
      assert (a + b)[|a + b| - 1] == b[|b| - 1];
      KeptAppend(a, b');
    } else {
      assert a + b == a;
    }
  }

  /** Kept entries are exactly the stripped lines that end with /info.json. */
  lemma {:induction false} KeptMembers(lines: seq<string>, u: string)
    ensures u in Kept(lines) <==> exists i :: 0 <= i < |lines| && StripNewlines(lines[i]) == u && Accepted(u)
  {
    if lines != [] {
      var n := |lines| - 1;
      var init := lines[..n];
      var last := StripNewlines(lines[n]);
      assert Kept(lines) == Kept(init) + (if Accepted(last) then [last] else []);
      KeptMembers(init, u);
      if u in Kept(lines) {
        if u in Kept(init) {
          var i :| 0 <= i < |init| && StripNewlines(init[i]) == u && Accepted(u);
          assert lines[i] == init[i];
        } else {
          assert u == last;
        }
      } else {
        forall i | 0 <= i < |lines|
          ensures !(StripNewlines(lines[i]) == u && Accepted(u))
        {
          if i < n {
            assert lines[i] == init[i];
          }
        }
      }
    }
  }

  /** A file of lines that are all acceptable entries is kept whole. */
  lemma {:induction false} KeptAllAccepted(lines: seq<string>)
    requires forall i :: 0 <= i < |lines| ==> '\n' !in lines[i] && Accepted(lines[i])
    ensures Kept(lines) == lines
  {
    if lines != [] {
      KeptAllAccepted(lines[..|lines| - 1]);
      assert lines == lines[..|lines| - 1] + [lines[|lines| - 1]];
    }
  }

  /** Nothing is kept exactly when no stripped line ends with /info.json. */
  lemma KeptEmpty(lines: seq<string>)
    ensures Kept(lines) == [] <==> forall i :: 0 <= i < |lines| ==> !Accepted(StripNewlines(lines[i]))
  {
    if Kept(lines) != [] {
      KeptMembers(lines, Kept(lines)[0]);
    } else {
      forall i | 0 <= i < |lines|
        ensures !Accepted(StripNewlines(lines[i]))
      {
        KeptMembers(lines, StripNewlines(lines[i]));
      }
    }
  }

  /** Every kept entry is its identifier followed by /info.json. */
  lemma KeptIdentifiers(lines: seq<string>, i: nat)
    requires i < |Kept(lines)|
    ensures Identifier(Kept(lines)[i]) + InfoSuffix == Kept(lines)[i]
  {
  }
}
