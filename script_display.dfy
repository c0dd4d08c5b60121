/** The script display card of the dashboard: the word count and reading time
    of a generated script, the name of its download file, and the flag raised
    when the script is copied. */
module ScriptDisplay {
  import opened Text

  /** The speaking speed the reading-time estimate assumes, in words per minute. */
  const WordsPerMinute := 130

  /** What the download file name ends with. */
  const FileSuffix := "-script.txt"

  // ---------------------------------------------------------------------------
  // Splitting at whitespace runs

  /** The length of the leading run of non-whitespace characters. */
  function WordEnd(s: string): (k: nat)
    ensures k <= |s|
    ensures forall i :: 0 <= i < k ==> !IsSpace(s[i])
    ensures k < |s| ==> IsSpace(s[k])
  {
    if s == "" || IsSpace(s[0]) then 0 else 1 + WordEnd(s[1..])
  }

  /** `s.split(/\s+/)`: the pieces between whitespace runs, left to right. A
      leading or trailing run gives an empty first or last piece, and the empty
      string gives one empty piece. */
  function SplitWs(s: string): (pieces: seq<string>)
    ensures |pieces| >= 1
    ensures forall k :: 0 <= k < |pieces| ==> NoSpace(pieces[k])
    decreases |s|
  {
    var k := WordEnd(s);
    if k == |s| then [s]
    else [s[..k]] + SplitWs(TrimStart(s[k + 1..]))
  }

  /** `s.replace(/\s+/g, "-")`: every whitespace run becomes one dash. */
  function DashRuns(s: string): (r: string)
    ensures NoSpace(r)
    decreases |s|
  {
    if s == "" then ""
    else if IsSpace(s[0]) then "-" + DashRuns(TrimStart(s[1..]))
    else [s[0]] + DashRuns(s[1..])
  }

  /** A string with no leading whitespace is its own `TrimStart`. */
  lemma TrimStartKeeps(s: string)
    requires s == "" || !IsSpace(s[0])
    ensures TrimStart(s) == s
  {
  }

  /** Dashing the runs leaves a leading word as it is. */
  lemma {:induction false} DashRunsAppend(w: string, rest: string)
    requires NoSpace(w)
    ensures DashRuns(w + rest) == w + DashRuns(rest)
    decreases |w|
  {
    if w != "" {
      assert (w + rest)[0] == w[0] && (w + rest)[1..] == w[1..] + rest;
      DashRunsAppend(w[1..], rest);
    } else {
      assert w + rest == rest;
    }
  }

  /** Joining a piece in front of at least one other puts the separator between. */
  lemma JoinCons(x: string, rest: seq<string>, sep: string)
    requires |rest| >= 1
    ensures Join([x] + rest, sep) == x + sep + Join(rest, sep)
  {
    assert ([x] + rest)[1..] == rest;
  }

  /** At the end of the leading word, the run that follows becomes one dash. */
  lemma DashRunsAtWordEnd(s: string)
    requires WordEnd(s) < |s|
    ensures DashRuns(s) == s[..WordEnd(s)] + "-" + DashRuns(TrimStart(s[WordEnd(s) + 1..]))
  {
    var k := WordEnd(s);
    assert s == s[..k] + s[k..];
    DashRunsAppend(s[..k], s[k..]);
    assert s[k..][1..] == s[k + 1..];
  }

  /** Splitting at whitespace runs and joining the pieces with dashes is the same
      as replacing every run by a dash: the two readings of `/\s+/` agree. */
  lemma {:induction false} JoinSplitWs(s: string)
    ensures Join(SplitWs(s), "-") == DashRuns(s)
    decreases |s|
  {
    var k := WordEnd(s);
    if k == |s| {
      assert SplitWs(s) == [s];
      assert NoSpace(s);
      DashRunsAppend(s, "");
      assert s + "" == s;
    } else {
      var t := TrimStart(s[k + 1..]);
      assert SplitWs(s) == [s[..k]] + SplitWs(t);
      JoinSplitWs(t);
      JoinCons(s[..k], SplitWs(t), "-");
      DashRunsAtWordEnd(s);
    }
  }

  /** A word followed by one space and a text that does not open with
      whitespace splits into the word and the pieces of that text. */
  lemma SplitWsCons(w: string, tail: string)
    requires NoSpace(w)
    requires tail == "" || !IsSpace(tail[0])
    ensures SplitWs(w + " " + tail) == [w] + SplitWs(tail)
  {
    var s := w + " " + tail;
    WordEndOf(w, " " + tail);
    assert s == w + (" " + tail);
    assert s[..|w|] == w && s[|w| + 1..] == tail;
    TrimStartKeeps(tail);
  }

  /** A whitespace run is no piece boundary inside a word: splitting words
      joined by single spaces gives the words back. */
  lemma {:induction false} SplitWsJoin(words: seq<string>)
    requires |words| >= 1
    requires forall k :: 0 <= k < |words| ==> words[k] != "" && NoSpace(words[k])
    ensures SplitWs(Join(words, " ")) == words
    decreases |words|
  {
    if |words| == 1 {
      WordEndOf(words[0], "");
      assert words[0] + "" == words[0];
    } else {
      var w, rest := words[0], words[1..];
      var tail := Join(rest, " ");
      assert Join(words, " ") == w + " " + tail;
      assert forall k :: 0 <= k < |rest| ==> rest[k] != "" && NoSpace(rest[k]) by {
        forall k | 0 <= k < |rest| ensures rest[k] != "" && NoSpace(rest[k]) {
          assert rest[k] == words[k + 1];
        }
      }
      assert !IsSpace(tail[0]) by {
        JoinEnds(rest, " ");
        assert rest[0] == words[1];
        assert tail[0] == rest[0][0];
      }
      SplitWsJoin(rest);
      SplitWsCons(w, tail);
      assert words == [w] + rest;
    }
  }

  /** The leading word ends where a following whitespace run begins. */
  lemma {:induction false} WordEndOf(w: string, rest: string)
    requires NoSpace(w)
    requires rest == "" || IsSpace(rest[0])
    ensures WordEnd(w + rest) == |w|
    decreases |w|
  {
    if w != "" {
      assert (w + rest)[1..] == w[1..] + rest;
      WordEndOf(w[1..], rest);
    } else {
      assert w + rest == rest;
    }
  }

  // ---------------------------------------------------------------------------
  // Statistics and the file name

  /** `wordCount`: the number of pieces between whitespace runs. */
  function WordCount(script: string): (n: nat)
    ensures n >= 1
    ensures script == "" ==> n == 1
  {
    |SplitWs(script)|
  }

  /** Words separated by single spaces are counted one by one. */
  lemma WordCountOfWords(words: seq<string>)
    requires |words| >= 1
    requires forall k :: 0 <= k < |words| ==> words[k] != "" && NoSpace(words[k])
    ensures WordCount(Join(words, " ")) == |words|
  {
    SplitWsJoin(words);
  }

  /** `estimatedTime = Math.ceil(wordCount / 130)`: the least number of whole
      minutes in which the words can be spoken. */
  function EstimatedTime(wordCount: nat): (minutes: nat)
    ensures WordsPerMinute * minutes >= wordCount
    ensures minutes > 0 ==> WordsPerMinute * (minutes - 1) < wordCount
    ensures wordCount >= 1 ==> minutes >= 1
  {
    (wordCount + WordsPerMinute - 1) / WordsPerMinute
  }

  /** The download file name: the topic with whitespace runs dashed, lower-cased,
      with the suffix. It holds no whitespace and no capital letter. */
  function Filename(topic: string): (name: string)
    ensures NoSpace(name)
    ensures forall i :: 0 <= i < |name| ==> !IsUpper(name[i])
    ensures EndsWith(name, FileSuffix)
    ensures |name| == |DashRuns(topic)| + |FileSuffix|
  {
    var base := ToLower(DashRuns(topic));
    var name := base + FileSuffix;
    assert forall i :: 0 <= i < |FileSuffix| ==> !IsUpper(FileSuffix[i]) && !IsSpace(FileSuffix[i]);
    assert forall i :: 0 <= i < |base| ==> !IsUpper(base[i]) && !IsSpace(base[i]);
    assert forall i :: |base| <= i < |name| ==> name[i] == FileSuffix[i - |base|];
    assert name[|name| - |FileSuffix|..] == FileSuffix;
    name
  }

  /** A topic of words separated by single spaces is named by its lower-cased
      words joined with dashes. */
  lemma FilenameOfWords(words: seq<string>)
    requires |words| >= 1
    requires forall k :: 0 <= k < |words| ==> words[k] != "" && NoSpace(words[k])
    ensures Filename(Join(words, " ")) == ToLower(Join(words, "-")) + FileSuffix
  {
    var topic := Join(words, " ");
    SplitWsJoin(words);
    JoinSplitWs(topic);
  }

  // ---------------------------------------------------------------------------
  // The card

  class Display {
    const script: string
    const topic: string
    var copied: bool

    constructor (script: string, topic: string)
      ensures this.script == script && this.topic == topic && !copied
    {
      this.script := script;
      this.topic := topic;
      copied := false;
    }

    /** `handleCopy`: the script goes to the clipboard and the copied flag rises. */
    method HandleCopy() returns (clipboard: string)
      modifies this
      ensures clipboard == script && copied
    {
      clipboard := script;
      copied := true;
    }

    /** `handleDownload`: the file holds the script under the derived name. */
    method HandleDownload() returns (name: string, contents: string)
      ensures NoSpace(name) && EndsWith(name, FileSuffix) && name == Filename(topic)
      ensures contents == script
    {
      name := Filename(topic);
      contents := script;
    }
  }
}
