/**
 * The labelled-audio evaluation script: the loose comparison of a
 * transcription with its ground truth, and the pass over the labelled
 * entries that records each transcription and counts matches.
 *
 * Word characters are the ASCII ones (letters, digits and `_`); the worker
 * that transcribes one file is a function from the resolved path to the
 * text it produced, or None when no result arrived.
 */
module LabeledAudios {
  import opened Values
  import opened Text

  /** A character `\w` matches. */
  predicate IsWordChar(c: char)
  {
    ('a' <= c <= 'z') || ('A' <= c <= 'Z') || ('0' <= c <= '9') || c == '_'
  }

  predicate AllWord(s: string)
  {
    forall i | 0 <= i < |s| :: IsWordChar(s[i])
  }

  /** `re.sub(r'\W+', '', s)`: every non-word character deleted. */
  function RemoveNonWord(s: string): (r: string)
    ensures AllWord(r) && |r| <= |s|
  {
    if s == [] then []
    else (if IsWordChar(s[0]) then [s[0]] else []) + RemoveNonWord(s[1..])
  }

  /** `c.lower()` on a word character. */
  function LowerChar(c: char): char
  {
    if 'A' <= c <= 'Z' then (c as int - 'A' as int + 'a' as int) as char else c
  }

  /** `s.lower()` */
  function Lower(s: string): (r: string)
    ensures |r| == |s| && forall i | 0 <= i < |s| :: r[i] == LowerChar(s[i])
  {
    seq(|s|, i requires 0 <= i < |s| => LowerChar(s[i]))
  }

  /** The `norm` inside `soft_equal`: non-word characters deleted, stripped, lower-cased. */
  function Norm(s: string): string
  {
    Lower(Strip(RemoveNonWord(s)))
  }

  /** `soft_equal(a, b)` */
  predicate SoftEqual(a: string, b: string)
  {
    Norm(a) == Norm(b)
  }

  /** The strip in `norm` never removes anything: no word character is whitespace. */
  lemma StripKeepsWords(s: string)
    requires AllWord(s)
    ensures Strip(s) == s
  {
    if s != [] {
      assert IsWordChar(s[0]) && IsWordChar(s[|s| - 1]);
    }
  }

  /** So `norm` is deletion of non-word characters followed by lower-casing. */
  lemma NormIsLowerWords(s: string)
    ensures Norm(s) == Lower(RemoveNonWord(s))
  {
    StripKeepsWords(RemoveNonWord(s));
  }

  /** Deletion distributes over concatenation. */
  lemma {:induction false} RemoveNonWordAppend(a: string, b: string)
    ensures RemoveNonWord(a + b) == RemoveNonWord(a) + RemoveNonWord(b)
    decreases |a|
  {
    if a != [] {
      assert (a + b)[1..] == a[1..] + b;
      RemoveNonWordAppend(a[1..], b);
    } else {
      assert a + b == b;
    }
  }

  /** Inserting characters that are not word characters (spaces, punctuation) never changes the verdict. */
  lemma PunctuationIgnored(a: string, p: string, b: string)
    requires forall i | 0 <= i < |p| :: !IsWordChar(p[i])
    ensures SoftEqual(a + p + b, a + b)
  {
    RemoveNonWordAppend(a + p, b);
    RemoveNonWordAppend(a, p);
    RemoveNonWordAppend(a, b);
    assert RemoveNonWord(p) == [] by {
      if RemoveNonWord(p) != [] {
        RemovedComeFrom(p, 0);
      }
    }
    NormIsLowerWords(a + p + b);
    NormIsLowerWords(a + b);
  }

  /** A character kept by the deletion is a word character of the input. */
  lemma {:induction false} RemovedComeFrom(s: string, k: int)
    requires 0 <= k < |RemoveNonWord(s)|
    ensures exists i | 0 <= i < |s| :: s[i] == RemoveNonWord(s)[k] && IsWordChar(s[i])
    decreases |s|
  {
    if IsWordChar(s[0]) && k == 0 {
      assert s[0] == RemoveNonWord(s)[0];
    } else {
      var k' := if IsWordChar(s[0]) then k - 1 else k;
      assert RemoveNonWord(s)[k] == RemoveNonWord(s[1..])[k'];
      RemovedComeFrom(s[1..], k');
      var i :| 0 <= i < |s[1..]| && s[1..][i] == RemoveNonWord(s[1..])[k'] && IsWordChar(s[1..][i]);
      assert s[i + 1] == s[1..][i];
    }
  }

  /** Case never changes the verdict: a text is soft-equal to its lower-cased form. */
  lemma CaseIgnored(a: string)
    ensures SoftEqual(Lower(a), a)
  {
    NormIsLowerWords(Lower(a));
    NormIsLowerWords(a);
    LowerCommutes(a);
  }

  lemma {:induction false} LowerCommutes(s: string)
    ensures RemoveNonWord(Lower(s)) == Lower(RemoveNonWord(s))
    ensures Lower(Lower(RemoveNonWord(s))) == Lower(RemoveNonWord(s))
    decreases |s|
  {
    if s != [] {
      assert Lower(s)[1..] == Lower(s[1..]);
      LowerCommutes(s[1..]);
      var r := RemoveNonWord(s);
      assert Lower(r) == (if IsWordChar(s[0]) then [LowerChar(s[0])] else []) + Lower(RemoveNonWord(s[1..]));
    }
  }

  /**
   * Letters, digits and underscores matter: two texts made only of
   * lower-case word characters are soft-equal exactly when they are equal.
   */
  lemma WordsSignificant(a: string, b: string)
    requires AllWord(a) && AllWord(b) && Lower(a) == a && Lower(b) == b
    ensures SoftEqual(a, b) <==> a == b
  {
    KeepsWords(a);
    KeepsWords(b);
    NormIsLowerWords(a);
    NormIsLowerWords(b);
  }

  lemma {:induction false} KeepsWords(s: string)
    requires AllWord(s)
    ensures RemoveNonWord(s) == s
    decreases |s|
  {
    if s != [] {
      KeepsWords(s[1..]);
      assert s == [s[0]] + s[1..];
    }
  }

  /** `soft_equal` is an equivalence: reflexive, symmetric and transitive. */
  lemma SoftEqualEquivalence(a: string, b: string, c: string)
    ensures SoftEqual(a, a)
    ensures SoftEqual(a, b) ==> SoftEqual(b, a)
    ensures SoftEqual(a, b) && SoftEqual(b, c) ==> SoftEqual(a, c)
  {
  }

  /** The folder the labelled entries live in, relative to the working directory. */
  const Folder := "tests/labeled_audios"

  predicate IsAbsolute(p: string)
  {
    |p| > 0 && p[0] == '/'
  }

  /**
   * The path an entry's `file` resolves to: a relative one is taken inside
   * the folder; an absolute one is made relative to the working directory,
   * and one outside it makes `relative_to` raise (None).
   */
  function Resolve(file: string, cwd: string): (r: Option<string>)
    ensures !IsAbsolute(file) ==> r == Some(Folder + "/" + file)
  {
    if !IsAbsolute(file) then Some(Folder + "/" + file)
    else
      var prefix := cwd + "/";
      if |prefix| <= |file| && file[..|prefix|] == prefix then Some(file[|prefix|..]) else None
  }

  /** An absolute file resolves exactly when it lies inside the working directory, to its path relative to it. */
  lemma ResolveAbsolute(file: string, cwd: string, rel: string)
    requires IsAbsolute(file)
    ensures Resolve(file, cwd) == Some(rel) <==> file == cwd + "/" + rel
  {
    var prefix := cwd + "/";
    if file == prefix + rel {
      assert file[..|prefix|] == prefix && file[|prefix|..] == rel;
    }
    if Resolve(file, cwd) == Some(rel) {
      assert file == file[..|prefix|] + file[|prefix|..];
    }
  }

  /** One labelled entry: its file, and its ground truth when it has one. */
  datatype Entry = Entry(file: string, groundTruth: Option<string>)

  /** What the script writes back into an entry. */
  datatype Outcome = Outcome(lastTranscription: Option<string>, datestamp: string, isMatch: Option<bool>)

  /** An entry's `match`: judged only when there is both a transcription and a ground truth. */
  function Judge(e: Entry, last: Option<string>): (m: Option<bool>)
    ensures m.Some? <==> last.Some? && e.groundTruth.Some?
    ensures m.Some? ==> (m.value <==> SoftEqual(last.value, e.groundTruth.value))
  {
    if last.Some? && e.groundTruth.Some? then Some(SoftEqual(last.value, e.groundTruth.value)) else None
  }

  /** Judged entries. */
  function CountJudged(os: seq<Outcome>): nat
  {
    if os == [] then 0 else CountJudged(os[..|os| - 1]) + (if os[|os| - 1].isMatch.Some? then 1 else 0)
  }

  /** Entries judged a match. */
  function CountMatches(os: seq<Outcome>): nat
  {
    if os == [] then 0 else CountMatches(os[..|os| - 1]) + (if os[|os| - 1].isMatch == Some(true) then 1 else 0)
  }

  /** There are never more matches than judged entries, nor more judged entries than entries. */
  lemma {:induction false} MatchesAtMostTotal(os: seq<Outcome>)
    ensures CountMatches(os) <= CountJudged(os) <= |os|
    decreases |os|
  {
    if os != [] {
      MatchesAtMostTotal(os[..|os| - 1]);
    }
  }

  /** Counting one more outcome. */
  lemma CountsSnoc(os: seq<Outcome>, o: Outcome)
    ensures CountJudged(os + [o]) == CountJudged(os) + (if o.isMatch.Some? then 1 else 0)
    ensures CountMatches(os + [o]) == CountMatches(os) + (if o.isMatch == Some(true) then 1 else 0)
  {
    assert (os + [o])[..|os|] == os;
  }

  /** The outcome written back for an entry whose file resolved to `path`: the transcription, the datestamp and the judgement. */
  function Transcribed(e: Entry, path: string, transcribe: string -> Option<string>, now: string): (o: Outcome)
    ensures o.lastTranscription == transcribe(path) && o.datestamp == now
    ensures o.isMatch == Judge(e, transcribe(path))
  {
    var last := transcribe(path);
    Outcome(last, now, Judge(e, last))
  }

  /**
   * `main()` as written: after resolving the entry's path, the loop body
   * calls `transcription_queue.queue.clear()`, but the bus hands out
   * `multiprocessing` queues, which have no `queue` attribute. The first
   * entry therefore raises (AttributeError, or ValueError from resolving a
   * path outside the working directory just before) and nothing is
   * recorded, counted or written back.
   */
  method EvaluateAsWritten(entries: seq<Entry>) returns (outcomes: seq<Outcome>, matches: nat, total: nat, aborted: bool)
    ensures aborted <==> entries != []
    ensures outcomes == [] && matches == 0 && total == 0
  {
    outcomes, matches, total, aborted := [], 0, 0, false;
    if entries != [] {
      // The first entry's `queue` attribute lookup (or its path resolution) raises.
      aborted := true;
    }
  }

  /**
   * `main()` as intended, with queues that can be cleared: each entry's
   * file is resolved and transcribed, its outcome recorded, and the match
   * and total counters advanced for judged entries. A file that does not
   * resolve aborts the run (`aborted`).
   */
  method Evaluate(entries: seq<Entry>, cwd: string, transcribe: string -> Option<string>, now: string)
    returns (outcomes: seq<Outcome>, matches: nat, total: nat, aborted: bool)
    ensures !aborted <==> forall i | 0 <= i < |entries| :: Resolve(entries[i].file, cwd).Some?
    ensures !aborted ==> |outcomes| == |entries|
    ensures !aborted ==> forall i | 0 <= i < |entries| ::
      outcomes[i] == Transcribed(entries[i], Resolve(entries[i].file, cwd).value, transcribe, now)
    ensures matches == CountMatches(outcomes) && total == CountJudged(outcomes)
  {
    outcomes, matches, total, aborted := [], 0, 0, false;
    for i := 0 to |entries|
      invariant |outcomes| == i
      invariant forall j | 0 <= j < i ::
        Resolve(entries[j].file, cwd).Some? && outcomes[j] == Transcribed(entries[j], Resolve(entries[j].file, cwd).value, transcribe, now)
      invariant matches == CountMatches(outcomes) && total == CountJudged(outcomes)
    {
      var path := Resolve(entries[i].file, cwd);
      if path.None? {
        aborted := true;
        return;
      }
      var o := Transcribed(entries[i], path.value, transcribe, now);
      var judged := o.isMatch;
      ghost var prev := outcomes;
      CountsSnoc(outcomes, o);
      outcomes := outcomes + [o];
      assert forall j | 0 <= j < i :: outcomes[j] == prev[j];
      if judged.Some? {
        if judged.value {
          matches := matches + 1;
        }
        total := total + 1;
      }
    }
  }
}
