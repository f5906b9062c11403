/**
 * The two computations of the landing page `src/pages/Home.jsx`: the client
 * logo initials and the cycling choice of a logo background.
 */
module Home {
  import opened Text

  const ClientGradients: seq<string> := [
    "bg-gradient-to-br from-primary-500 to-blue-600",
    "bg-gradient-to-br from-purple-500 to-pink-600",
    "bg-gradient-to-br from-emerald-500 to-teal-600",
    "bg-gradient-to-br from-orange-500 to-amber-600",
    "bg-gradient-to-br from-rose-500 to-red-600",
    "bg-gradient-to-br from-cyan-500 to-sky-600"
  ]

  /**
   * `getInitials(name)`: trim, split at whitespace runs, take the first
   * character of the first two pieces (an absent or empty piece gives
   * nothing) and upper-case them.
   */
  function Initials(name: string): (r: string)
    ensures |r| <= 2
  {
    FirstTwoInitials(SplitOnSpaces(Trim(name)))
  }

  /** `(words[0]?.[0] || '') + (words[1]?.[0] || '')`, upper-cased. */
  function FirstTwoInitials(words: seq<string>): (r: string)
    ensures |r| == (if |words| > 0 && words[0] != [] then 1 else 0) + (if |words| > 1 && words[1] != [] then 1 else 0)
    ensures |words| > 0 && words[0] != [] ==> r[0] == UpperChar(words[0][0])
    ensures |words| > 1 && words[1] != [] ==> r[|r| - 1] == UpperChar(words[1][0])
  {
    var first := if |words| > 0 && |words[0]| > 0 then [words[0][0]] else "";
    var second := if |words| > 1 && |words[1]| > 0 then [words[1][0]] else "";
    Upper(first + second)
  }

  lemma TwoNonEmptyWords(words: seq<string>)
    requires |words| >= 2 && words[0] != [] && words[1] != []
    ensures FirstTwoInitials(words) == [UpperChar(words[0][0]), UpperChar(words[1][0])]
  {
    var pair := [words[0][0]] + [words[1][0]];
    assert Upper(pair)[0] == UpperChar(words[0][0]);
    assert Upper(pair)[1] == UpperChar(words[1][0]);
  }

  /** An empty or all-whitespace name has no initials. */
  lemma BlankNameHasNoInitials(name: string)
    requires AllSpace(name)
    ensures Initials(name) == ""
  {
    TrimBlank(name);
    assert SplitOnSpaces("") == [""];
  }

  /** A single word gives its first character, upper-cased. */
  lemma OneWordInitial(name: string)
    requires Trim(name) != [] && NoSpace(Trim(name))
    ensures Initials(name) == [UpperChar(Trim(name)[0])]
  {
    SplitSingleWord(Trim(name));
  }

  /**
   * Two or more words give the upper-cased first characters of the first two;
   * whatever follows the second word is ignored.
   */
  lemma TwoWordsInitials(name: string, w1: string, gap: string, w2: string, rest: string)
    requires Trim(name) == w1 + gap + w2 + rest
    requires w1 != [] && NoSpace(w1) && w2 != [] && NoSpace(w2)
    requires gap != [] && AllSpace(gap)
    requires rest == [] || IsSpace(rest[0])
    ensures Initials(name) == [UpperChar(w1[0]), UpperChar(w2[0])]
  {
    var t := Trim(name);
    assert t == w1 + gap + (w2 + rest);
    SplitAfterWord(w1, gap, w2 + rest);
    SplitFirstWord(w2, rest);
    var tail := SplitOnSpaces(w2 + rest);
    var words := SplitOnSpaces(t);
    assert words == [w1] + tail;
    assert words[1] == tail[0] == w2;
    TwoNonEmptyWords(words);
  }

  /** Whitespace before or after a name does not change its initials. */
  lemma PaddingIgnored(ws1: string, name: string, ws2: string)
    requires AllSpace(ws1) && AllSpace(ws2)
    ensures Initials(ws1 + name + ws2) == Initials(name)
  {
    TrimPadded(ws1, name, ws2);
  }

  /** `index % clientGradients.length`: always a valid index, cycling through the six backgrounds. */
  function GradientIndex(index: nat): (k: nat)
    ensures k < |ClientGradients|
    ensures index < |ClientGradients| ==> k == index
  {
    index % |ClientGradients|
  }

  /** Card `i` and card `i + 6` share their background. */
  lemma GradientsCycle(index: nat)
    ensures GradientIndex(index + |ClientGradients|) == GradientIndex(index)
  {
    var n := |ClientGradients|;
    assert n == 6;
    assert (index + 6) % 6 == index % 6;
  }
}
