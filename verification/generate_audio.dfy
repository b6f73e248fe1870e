/**
  The batch audio script: read the quotes from the web front end's message
  file, then produce `<mystery_id>.wav` for every quote that has none yet,
  counting the files generated, skipped and failed.

  The engine's run and the outcome of each file write are inputs, one per
  quote, in the order the quotes are visited.
 */
module GenerateAudio {
  import opened Wrappers
  import opened Text
  import opened Externals

  /** A parsed JSON value, as far as the script looks into it. An object keeps
      its members in file order. */
  datatype Json = JString(s: string) | JObject(members: seq<(string, Json)>) | JOther

  /** `obj.get(key)` on a parsed JSON object: when a key is repeated in the
      file, the parser keeps the last value. */
  function Lookup(members: seq<(string, Json)>, key: string): (r: Option<Json>)
    ensures r.None? <==> forall i :: 0 <= i < |members| ==> members[i].0 != key
    ensures r.Some? ==> exists i :: 0 <= i < |members| && members[i] == (key, r.value)
                                   && forall j :: i < j < |members| ==> members[j].0 != key
    decreases |members|
  {
    if |members| == 0 then None
    else if members[|members| - 1].0 == key then Some(members[|members| - 1].1)
    else Lookup(members[..|members| - 1], key)
  }

  /** `load_quotes`: the "Quotes" member of the message file, or an empty
      object when there is none. */
  function LoadQuotes(messages: seq<(string, Json)>): (quotes: Json)
    ensures (forall i :: 0 <= i < |messages| ==> messages[i].0 != "Quotes") ==> quotes == JObject([])
    ensures (exists i :: 0 <= i < |messages| && messages[i].0 == "Quotes") ==>
              exists i :: 0 <= i < |messages| && messages[i] == ("Quotes", quotes)
                          && forall j :: i < j < |messages| ==> messages[j].0 != "Quotes"
  {
    match Lookup(messages, "Quotes")
    case Some(v) => v
    case None => JObject([])
  }

  /** `<mystery_id>.wav` */
  function OutputFileName(mysteryId: string): (n: string)
    ensures |n| == |mysteryId| + 4 && n[..|mysteryId|] == mysteryId && n[|mysteryId|..] == ".wav"
  {
    mysteryId + ".wav"
  }

  /** Distinct mysteries write distinct files. */
  lemma OutputFileNameInjective(a: string, b: string)
    requires OutputFileName(a) == OutputFileName(b)
    ensures a == b
  {
    CancelSuffix(a, b, ".wav");
  }

  /** What the engine and the writer do for one quote. */
  datatype Attempt = Attempt(run: EngineRun, write: WriteOutcome)

  /** The result of `generate_audio_for_quote` and the directory after it. */
  datatype QuoteOutcome = QuoteOutcome(ok: bool, files: map<string, seq<Sample>>)

  /** Specification of `generate_audio_for_quote`: an existing file counts as
      done; otherwise the chunks are combined and written, and every failure
      (engine, no chunks, write) is a `false` result, with no cleanup of what
      a failed write left. */
  function QuoteSpec(files: map<string, seq<Sample>>, mysteryId: string, a: Attempt): (q: QuoteOutcome)
    ensures OutputFileName(mysteryId) in files ==> q == QuoteOutcome(true, files)
    ensures OutputFileName(mysteryId) !in files ==>
              (q.ok <==> a.run.failure.None? && |a.run.chunks| > 0 && a.write.Written?)
    ensures OutputFileName(mysteryId) !in files && q.ok ==>
              q.files == files[OutputFileName(mysteryId) := Concat(a.run.chunks)]
    ensures a.run.failure.Some? || |a.run.chunks| == 0 ==> q.files == files
    ensures q.files - {OutputFileName(mysteryId)} == files - {OutputFileName(mysteryId)}
  {
    var name := OutputFileName(mysteryId);
    if name in files then QuoteOutcome(true, files)
    else if a.run.failure.Some? || |a.run.chunks| == 0 then QuoteOutcome(false, files)
    else
      match a.write
      case Written => QuoteOutcome(true, files[name := Concat(a.run.chunks)])
      case WriteFailed(_, leftover) =>
        QuoteOutcome(false, if leftover.Some? then files[name := leftover.value] else files)
  }

  /** `generate_audio_for_quote` on the output directory. */
  method GenerateAudioForQuote(mysteryId: string, text: string, outputDir: Directory, a: Attempt)
    returns (ok: bool)
    modifies outputDir
    ensures var q := QuoteSpec(old(outputDir.files), mysteryId, a);
      ok == q.ok && outputDir.files == q.files
  {
    var name := OutputFileName(mysteryId);
    if outputDir.Exists(name) {
      return true;
    }
    var chunks: seq<seq<Sample>> := [];
    for i := 0 to |a.run.chunks|
      invariant chunks == a.run.chunks[..i]
    {
      chunks := chunks + [a.run.chunks[i]];
    }
    assert chunks == a.run.chunks;
    if a.run.failure.Some? {
      return false;
    }
    if |chunks| == 0 {
      return false;
    }
    var failed := outputDir.Write(name, Concat(chunks), a.write);
    ok := failed.None?;
  }

  /** A file a failed write left behind is taken as done by a later run:
      the script reports success for it and never regenerates it. */
  lemma PartialFileTakenAsDone(files: map<string, seq<Sample>>, mysteryId: string, a1: Attempt, a2: Attempt)
    requires OutputFileName(mysteryId) !in files
    requires a1.run.failure.None? && |a1.run.chunks| > 0
    requires a1.write.WriteFailed? && a1.write.leftover.Some?
    ensures var q1 := QuoteSpec(files, mysteryId, a1);
      && !q1.ok
      && QuoteSpec(q1.files, mysteryId, a2) == QuoteOutcome(true, q1.files)
      && q1.files[OutputFileName(mysteryId)] == a1.write.leftover.value
  {
  }

  /** The three counters of `main` and the directory. */
  datatype Tally = Tally(success: nat, skip: nat, error: nat, files: map<string, seq<Sample>>)

  /** One turn of `main`'s loop: a quote whose file exists is skipped;
      otherwise the quote is generated and counted by its result. */
  function Visit(t: Tally, mysteryId: string, a: Attempt): (u: Tally)
    ensures u.success + u.skip + u.error == t.success + t.skip + t.error + 1
    ensures u.skip == t.skip + if OutputFileName(mysteryId) in t.files then 1 else 0
    ensures var miss := OutputFileName(mysteryId) !in t.files;
      && u.success == t.success + (if miss && QuoteSpec(t.files, mysteryId, a).ok then 1 else 0)
      && u.error == t.error + (if miss && !QuoteSpec(t.files, mysteryId, a).ok then 1 else 0)
      && u.files == (if miss then QuoteSpec(t.files, mysteryId, a).files else t.files)
    ensures u.files - {OutputFileName(mysteryId)} == t.files - {OutputFileName(mysteryId)}
  {
    if OutputFileName(mysteryId) in t.files then Tally(t.success, t.skip + 1, t.error, t.files)
    else
      var q := QuoteSpec(t.files, mysteryId, a);
      if q.ok then Tally(t.success + 1, t.skip, t.error, q.files)
      else Tally(t.success, t.skip, t.error + 1, q.files)
  }

  /** `main`'s loop over the quotes, in order. */
  function TallyAll(files: map<string, seq<Sample>>, quotes: seq<(string, string)>, attempts: seq<Attempt>): (t: Tally)
    requires |quotes| == |attempts|
    ensures forall n :: n in t.files && n !in files ==>
              exists j :: 0 <= j < |quotes| && n == OutputFileName(quotes[j].0)
    ensures forall n :: n in files && n !in t.files ==>
              exists j :: 0 <= j < |quotes| && n == OutputFileName(quotes[j].0)
    decreases |quotes|
  {
    if |quotes| == 0 then Tally(0, 0, 0, files)
    else
      var n := |quotes| - 1;
      Visit(TallyAll(files, quotes[..n], attempts[..n]), quotes[n].0, attempts[n])
  }

  /** A dictionary's keys: no mystery appears twice. */
  predicate DistinctIds(quotes: seq<(string, string)>)
  {
    forall i, j :: 0 <= i < j < |quotes| ==> quotes[i].0 != quotes[j].0
  }

  /** How many quotes have a file in `files`. */
  function CountExisting(files: map<string, seq<Sample>>, quotes: seq<(string, string)>): nat
    decreases |quotes|
  {
    if |quotes| == 0 then 0
    else CountExisting(files, quotes[..|quotes| - 1]) + if OutputFileName(quotes[|quotes| - 1].0) in files then 1 else 0
  }

  /** Every quote is counted exactly once: generated, skipped and failed add
      up to the number of quotes. */
  lemma {:induction false} TallyConservation(files: map<string, seq<Sample>>, quotes: seq<(string, string)>, attempts: seq<Attempt>)
    requires |quotes| == |attempts|
    ensures var t := TallyAll(files, quotes, attempts); t.success + t.skip + t.error == |quotes|
    decreases |quotes|
  {
    if |quotes| > 0 {
      var n := |quotes| - 1;
      TallyConservation(files, quotes[..n], attempts[..n]);
    }
  }

  /** The loop only touches the files of the quotes it visited. */
  lemma {:induction false} TallyFrame(files: map<string, seq<Sample>>, quotes: seq<(string, string)>, attempts: seq<Attempt>,
                                      name: string)
    requires |quotes| == |attempts|
    requires forall j :: 0 <= j < |quotes| ==> OutputFileName(quotes[j].0) != name
    ensures name in TallyAll(files, quotes, attempts).files <==> name in files
    decreases |quotes|
  {
    if |quotes| > 0 {
      var n := |quotes| - 1;
      TallyFrame(files, quotes[..n], attempts[..n], name);
      var before := TallyAll(files, quotes[..n], attempts[..n]).files;
      var after := TallyAll(files, quotes, attempts).files;
      assert name in after <==> name in after - {OutputFileName(quotes[n].0)};
      assert name in before <==> name in before - {OutputFileName(quotes[n].0)};
    }
  }

  /** The skip counter is the number of quotes whose file existed before the
      run: each quote is visited once, and no visit creates another quote's
      file. */
  lemma {:induction false} SkipCountsExisting(files: map<string, seq<Sample>>, quotes: seq<(string, string)>, attempts: seq<Attempt>)
    requires |quotes| == |attempts|
    requires DistinctIds(quotes)
    ensures TallyAll(files, quotes, attempts).skip == CountExisting(files, quotes)
    decreases |quotes|
  {
    if |quotes| > 0 {
      var n := |quotes| - 1;
      var name := OutputFileName(quotes[n].0);
      SkipCountsExisting(files, quotes[..n], attempts[..n]);
      forall j | 0 <= j < n
        ensures OutputFileName(quotes[..n][j].0) != name
      {
        if OutputFileName(quotes[..n][j].0) == name {
          OutputFileNameInjective(quotes[j].0, quotes[n].0);
          assert false;
        }
      }
      TallyFrame(files, quotes[..n], attempts[..n], name);
    }
  }

  /** `main`'s loop on the output directory. */
  method GenerateAll(quotes: seq<(string, string)>, outputDir: Directory, attempts: seq<Attempt>)
    returns (success: nat, skip: nat, error: nat)
    requires |quotes| == |attempts|
    requires DistinctIds(quotes)
    modifies outputDir
    ensures var t := TallyAll(old(outputDir.files), quotes, attempts);
      success == t.success && skip == t.skip && error == t.error && outputDir.files == t.files
    ensures success + skip + error == |quotes|
    ensures skip == CountExisting(old(outputDir.files), quotes)
  {
    ghost var files0 := outputDir.files;
    success, skip, error := 0, 0, 0;
    for i := 0 to |quotes|
      invariant Tally(success, skip, error, outputDir.files) == TallyAll(files0, quotes[..i], attempts[..i])
    {
      assert quotes[..i + 1][..i] == quotes[..i] && attempts[..i + 1][..i] == attempts[..i];
      var (mysteryId, text) := quotes[i];
      if outputDir.Exists(OutputFileName(mysteryId)) {
        skip := skip + 1;
        continue;
      }
      var ok := GenerateAudioForQuote(mysteryId, text, outputDir, attempts[i]);
      if ok {
        success := success + 1;
      } else {
        error := error + 1;
      }
    }
    assert quotes[..|quotes|] == quotes && attempts[..|attempts|] == attempts;
    TallyConservation(files0, quotes, attempts);
    SkipCountsExisting(files0, quotes, attempts);
  }
}
