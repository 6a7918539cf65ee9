/** Job names carry UUIDs through Slurm: the sbatch command, the listing of `squeue`, and its parser. */
module JobNames {
  import opened Wrappers
  import opened Text
  import opened JobInformation

  const SEPARATOR := ":::sep:::"
  const WIDTH := 32

  // ----- The sbatch command --------------------------------------------------------------------------

  /** The name of a job starts with its UUID. */
  function JobName(info: JobInfo): string {
    info.uuid + "-" +
    (if info.name != "" then info.name
     else if info.namespace == "" || info.objectName == "" then "k8s-slurm-injector-job"
     else info.namespace + "-" + info.objectName)
  }

  /** What follows the UUID: the given name, or namespace and object name, or a fixed name if either is missing. */
  lemma NameOfJob(info: JobInfo)
    ensures info.name != "" ==> JobName(info) == info.uuid + "-" + info.name
    ensures info.name == "" && info.namespace != "" && info.objectName != "" ==>
      JobName(info) == info.uuid + "-" + info.namespace + "-" + info.objectName
    ensures info.name == "" && (info.namespace == "" || info.objectName == "") ==>
      JobName(info) == info.uuid + "-" + "k8s-slurm-injector-job"
  {
    assert info.uuid + "-" + info.namespace + "-" + info.objectName ==
           info.uuid + "-" + (info.namespace + "-" + info.objectName);
  }

  /** An option is given only with a value. */
  function Given(flag: string, value: string): seq<string> {
    if value == "" then [] else [flag + value]
  }

  method Append(commands: seq<string>, flag: string, value: string) returns (r: seq<string>)
    ensures r == commands + Given(flag, value)
  {
    r := commands;
    if value != "" { r := r + [flag + value]; }
  }

  method ConstructCommand(info: JobInfo) returns (commands: seq<string>)
    ensures commands ==
            ["sbatch", "--parsable", "--output=/dev/null", "--error=/dev/null", "--job-name=" + JobName(info)]
            + Given("--partition=", info.partition) + Given("--nodelist=", info.node)
            + Given("--ntasks=", info.ntasks) + Given("--cpus-per-task=", info.ncpus) + Given("--gres=", info.gres)
            + Given("--time=", info.time)
  {
    var jobName := info.name;
    if jobName == "" {
      if info.namespace == "" || info.objectName == "" {
        jobName := "k8s-slurm-injector-job";
      } else {
        jobName := info.namespace + "-" + info.objectName;
      }
    }
    jobName := info.uuid + "-" + jobName;
    commands := ["sbatch", "--parsable", "--output=/dev/null", "--error=/dev/null", "--job-name=" + jobName];
    commands := Append(commands, "--partition=", info.partition);
    commands := Append(commands, "--nodelist=", info.node);
    commands := Append(commands, "--ntasks=", info.ntasks);
    commands := Append(commands, "--cpus-per-task=", info.ncpus);
    commands := Append(commands, "--gres=", info.gres);
    commands := Append(commands, "--time=", info.time);
  }

  // ----- The listing -----------------------------------------------------------------------------------

  datatype Job = Job(name: string, id: string)

  /** `%32j`: a field of exactly 32 characters, cut or padded on the right. */
  function Field(name: string): string {
    if |name| >= WIDTH then name[..WIDTH] else name + Spaces(WIDTH - |name|)
  }

  function Line(job: Job): string { Field(job.name) + SEPARATOR + job.id }

  /** What `squeue` prints. */
  function Listing(jobs: seq<Job>): string {
    if jobs == [] then "" else Line(jobs[0]) + "\n" + Listing(jobs[1..])
  }

  // ----- The parser ------------------------------------------------------------------------------------

  /** The two trimmed pieces of a line around the separator. */
  function Pieces(line: string): (string, string)
    requires |Split(line, SEPARATOR)| >= 2
  {
    (TrimSpace(Split(line, SEPARATOR)[0]), TrimSpace(Split(line, SEPARATOR)[1]))
  }

  /** A line that is neither empty nor has a separator makes the parser panic. */
  predicate Panics(line: string) { line != "" && |Split(line, SEPARATOR)| < 2 }

  predicate IsUuidAndId(pieces: (string, string)) { |pieces.0| == WIDTH && pieces.1 != "" }

  function ParseLine(line: string): seq<Job>
    requires !Panics(line)
  {
    if line != "" && IsUuidAndId(Pieces(line)) then [Job(Pieces(line).0, Pieces(line).1)] else []
  }

  ghost predicate NonePanics(lines: seq<string>) { forall i :: 0 <= i < |lines| ==> !Panics(lines[i]) }

  ghost function ParseLines(lines: seq<string>): seq<Job>
    requires NonePanics(lines)
  {
    if lines == [] then [] else ParseLines(lines[..|lines| - 1]) + ParseLine(lines[|lines| - 1])
  }

  lemma NextLine(lines: seq<string>, i: nat)
    requires i < |lines| && NonePanics(lines[..i])
    ensures NonePanics(lines[..i + 1]) <==> !Panics(lines[i])
    ensures !Panics(lines[i]) ==> ParseLines(lines[..i + 1]) == ParseLines(lines[..i]) + ParseLine(lines[i])
  {
    var next := lines[..i + 1];
    assert next[..i] == lines[..i] && next[i] == lines[i];
  }

  /** The two parallel slices of a list of jobs. */
  ghost predicate Slices(uuids: seq<string>, ids: seq<string>, jobs: seq<Job>) {
    |uuids| == |ids| == |jobs| && forall i :: 0 <= i < |jobs| ==> jobs[i] == Job(uuids[i], ids[i])
  }

  /** One turn of the loop over lines. */
  method ReadLine(line: string) returns (r: Result<Option<Job>>)
    ensures r.Ok? <==> !Panics(line)
    ensures r.Ok? ==> ParseLine(line) == if r.value.Some? then [r.value.value] else []
  {
    if line == "" { return Ok(None); }
    var pieces := Split(line, SEPARATOR);
    if |pieces| < 2 { return Err; }
    var uuid, id := TrimSpace(pieces[0]), TrimSpace(pieces[1]);
    r := Ok(if |uuid| == 32 && id != "" then Some(Job(uuid, id)) else None);
  }

  /** `ListUUIDsAndJobIDs` on the output of `squeue`; a panic is an error. The two slices have one length. */
  method ListUuidsAndJobIds(out: string) returns (r: Result<(seq<string>, seq<string>)>)
    ensures r.Ok? <==> NonePanics(Split(out, "\n"))
    ensures r.Ok? ==> Slices(r.value.0, r.value.1, ParseLines(Split(out, "\n")))
  {
    var uuids, ids := [], [];
    var lines := Split(out, "\n");
    for i := 0 to |lines|
      invariant NonePanics(lines[..i]) && Slices(uuids, ids, ParseLines(lines[..i]))
    {
      NextLine(lines, i);
      var entry := ReadLine(lines[i]);
      if entry.Err? { return Err; }
      if entry.value.Some? {
        uuids, ids := uuids + [entry.value.value.name], ids + [entry.value.value.id];
      }
    }
    assert lines[..|lines|] == lines;
    r := Ok((uuids, ids));
  }

  /** A line makes the parser panic exactly if it is not empty and the separator does not occur in it. */
  lemma PanicsExactly(line: string)
    ensures Panics(line) <==> line != "" && forall i :: 0 <= i <= |line| ==> !(":::sep:::" <= line[i..])
  {
    IndexOfExactly(line, SEPARATOR);
  }

  /** What follows a second separator is ignored. */
  lemma ThirdPieceIsIgnored(a: string, b: string, rest: string)
    requires ':' !in a && ':' !in b
    ensures var line := a + ":::sep:::" + b + ":::sep:::" + rest;
      !Panics(line) && Pieces(line) == (TrimSpace(a), TrimSpace(b))
  {
    assert a + SEPARATOR + b + SEPARATOR + rest == a + SEPARATOR + (b + SEPARATOR + rest);
    SplitAfter(a, SEPARATOR, b + SEPARATOR + rest);
    SplitAfter(b, SEPARATOR, rest);
  }

  // ----- Which jobs the parser recognises ----------------------------------------------------------------

  /** The printed part of a name consists of ASCII characters, for which Slurm and Go count bytes, and neither it nor
      the id disturbs the format of the listing. */
  predicate Printable(job: Job) {
    && AllOf(Field(job.name), c => c != ':' && c != '\n' && c < '\U{80}')
    && job.id != "" && AllOf(job.id, c => c != ':' && c != '\n' && !IsSpace(c))
  }

  /** The first 32 characters of the name are 32 characters after trimming. */
  predicate Recognised(job: Job) { |job.name| >= WIDTH && !IsSpace(job.name[0]) && !IsSpace(job.name[WIDTH - 1]) }

  function RecognisedJobs(jobs: seq<Job>): seq<Job> {
    if jobs == [] then []
    else
      var n := |jobs| - 1;
      RecognisedJobs(jobs[..n]) + if Recognised(jobs[n]) then [Job(jobs[n].name[..WIDTH], jobs[n].id)] else []
  }

  lemma {:induction false} TrimRightShortens(s: string)
    ensures |TrimRight(s)| <= |s| && (|TrimRight(s)| == |s| ==> TrimRight(s) == s)
    ensures TrimRight(s) == s <==> s == "" || !IsSpace(s[|s| - 1])
  {
    if s != "" && IsSpace(s[|s| - 1]) { TrimRightShortens(s[..|s| - 1]); }
  }

  lemma {:induction false} TrimLeftShortens(s: string)
    ensures |TrimLeft(s)| <= |s| && (|TrimLeft(s)| == |s| ==> TrimLeft(s) == s)
    ensures TrimLeft(s) == s <==> s == "" || !IsSpace(s[0])
  {
    if s != "" && IsSpace(s[0]) { TrimLeftShortens(s[1..]); }
  }

  /** Trimming keeps the length exactly when neither end is a space. */
  lemma TrimSpaceKeeps(s: string)
    ensures |TrimSpace(s)| == |s| <==> s == "" || (!IsSpace(s[0]) && !IsSpace(s[|s| - 1]))
    ensures |TrimSpace(s)| == |s| ==> TrimSpace(s) == s
    ensures |TrimSpace(s)| <= |s|
  {
    TrimLeftShortens(s);
    TrimRightShortens(TrimLeft(s));
  }

  lemma FieldIsUuid(name: string)
    ensures |Field(name)| == WIDTH
    ensures |TrimSpace(Field(name))| == WIDTH <==> |name| >= WIDTH && !IsSpace(name[0]) && !IsSpace(name[WIDTH - 1])
    ensures |TrimSpace(Field(name))| == WIDTH ==> TrimSpace(Field(name)) == name[..WIDTH]
  {
    TrimSpaceKeeps(Field(name));
    assert |name| < WIDTH ==> IsSpace(Field(name)[WIDTH - 1]);
  }

  lemma LineIsParsed(job: Job)
    requires Printable(job)
    ensures '\n' !in Line(job) && Line(job) != "" && Split(Line(job), SEPARATOR) == [Field(job.name), job.id]
    ensures IsUuidAndId(Pieces(Line(job))) <==> Recognised(job)
    ensures Recognised(job) ==> Pieces(Line(job)) == (job.name[..WIDTH], job.id)
  {
    SplitAfter(Field(job.name), SEPARATOR, job.id);
    SplitNone(job.id, SEPARATOR);
    TrimSpaceKeeps(job.id);
    FieldIsUuid(job.name);
    assert '\n' !in SEPARATOR && '\n' !in job.id;
  }

  /** The lines of a listing. */
  function Lines(jobs: seq<Job>): (r: seq<string>)
    ensures |r| == |jobs|
  {
    seq(|jobs|, i requires 0 <= i < |jobs| => Line(jobs[i]))
  }

  ghost predicate AllPrintable(jobs: seq<Job>) { forall i :: 0 <= i < |jobs| ==> Printable(jobs[i]) }

  lemma FirstLine(jobs: seq<Job>)
    requires jobs != []
    ensures [Line(jobs[0])] + (Lines(jobs[1..]) + [""]) == Lines(jobs) + [""]
  {
  }

  lemma {:induction false} ListingIsSplit(jobs: seq<Job>)
    requires AllPrintable(jobs)
    ensures Split(Listing(jobs), "\n") == Lines(jobs) + [""]
  {
    if jobs == [] {
      SplitNone("", "\n");
    } else {
      LineIsParsed(jobs[0]);
      SplitAfter(Line(jobs[0]), "\n", Listing(jobs[1..]));
      ListingIsSplit(jobs[1..]);
      FirstLine(jobs);
    }
  }

  lemma NoLinePanics(jobs: seq<Job>)
    requires AllPrintable(jobs)
    ensures NonePanics(Lines(jobs))
  {
    forall i | 0 <= i < |jobs| ensures !Panics(Lines(jobs)[i]) { LineIsParsed(jobs[i]); }
  }

  lemma LastLine(jobs: seq<Job>)
    requires jobs != [] && AllPrintable(jobs)
    ensures var n := |jobs| - 1;
      Lines(jobs)[..n] == Lines(jobs[..n]) && Lines(jobs)[n] == Line(jobs[n]) && AllPrintable(jobs[..n])
  {
  }

  lemma {:induction false} LinesAreParsed(jobs: seq<Job>)
    requires AllPrintable(jobs)
    ensures NonePanics(Lines(jobs)) && ParseLines(Lines(jobs)) == RecognisedJobs(jobs)
  {
    NoLinePanics(jobs);
    if jobs != [] {
      var n := |jobs| - 1;
      LastLine(jobs);
      LinesAreParsed(jobs[..n]);
      LineIsParsed(jobs[n]);
    }
  }

  /** For any jobs whose names and ids do not disturb the format, the parser returns exactly the recognised ones, in
      order, with the first 32 characters of their names. */
  lemma ListingRoundTrip(jobs: seq<Job>)
    requires AllPrintable(jobs)
    ensures NonePanics(Split(Listing(jobs), "\n"))
    ensures ParseLines(Split(Listing(jobs), "\n")) == RecognisedJobs(jobs)
  {
    ListingIsSplit(jobs);
    LinesAreParsed(jobs);
    var lines := Split(Listing(jobs), "\n");
    assert lines[|lines| - 1] == "" && lines[..|lines| - 1] == Lines(jobs);
  }

  // ----- Jobs of the injector --------------------------------------------------------------------------------

  predicate IsUuid(u: string) { |u| == WIDTH && AllOf(u, c => IsDigit(c) || 'a' <= c <= 'f') }

  datatype Submission = Submission(info: JobInfo, id: string)

  predicate ByInjector(s: Submission) { IsUuid(s.info.uuid) && IsDecimal(s.id) }

  function Submitted(s: seq<Submission>): (r: seq<Job>)
    ensures |r| == |s|
  {
    seq(|s|, i requires 0 <= i < |s| => Job(JobName(s[i].info), s[i].id))
  }

  function UuidsAndIds(s: seq<Submission>): (r: seq<Job>)
    ensures |r| == |s|
  {
    seq(|s|, i requires 0 <= i < |s| => Job(s[i].info.uuid, s[i].id))
  }

  lemma SubmissionIsRecognised(s: Submission)
    requires ByInjector(s)
    ensures var job := Job(JobName(s.info), s.id);
      Printable(job) && Recognised(job) && job.name[..WIDTH] == s.info.uuid
  {
  }

  lemma {:induction false} SubmissionsAreRecognised(s: seq<Submission>)
    requires forall i :: 0 <= i < |s| ==> ByInjector(s[i])
    ensures AllPrintable(Submitted(s)) && RecognisedJobs(Submitted(s)) == UuidsAndIds(s)
  {
    forall i | 0 <= i < |s| ensures Printable(Submitted(s)[i]) { SubmissionIsRecognised(s[i]); }
    if s != [] {
      var n := |s| - 1;
      SubmissionIsRecognised(s[n]);
      SubmissionsAreRecognised(s[..n]);
      assert Submitted(s)[..n] == Submitted(s[..n]);
      assert UuidsAndIds(s) == UuidsAndIds(s[..n]) + [UuidsAndIds(s)[n]];
    }
  }

  /** Whatever else is in the names, the listing of submitted jobs is parsed back into their UUIDs and ids, in order. */
  lemma JobIdentityRoundTrip(s: seq<Submission>)
    requires forall i :: 0 <= i < |s| ==> ByInjector(s[i])
    ensures NonePanics(Split(Listing(Submitted(s)), "\n"))
    ensures ParseLines(Split(Listing(Submitted(s)), "\n")) == UuidsAndIds(s)
  {
    SubmissionsAreRecognised(s);
    ListingRoundTrip(Submitted(s));
  }
}
