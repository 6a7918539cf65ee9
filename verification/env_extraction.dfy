/** The environment handler's extraction of variables from the output of `env`. */
module EnvExtraction {
  import opened Wrappers
  import opened Text

  const CUDA_DEVICES := "CUDA_VISIBLE_DEVICES"
  const NVIDIA_DEVICES := "NVIDIA_VISIBLE_DEVICES"

  predicate Wanted(key: string) { HasPrefix(key, "SLURM_") || HasPrefix(key, "CUDA_") }

  /** The key under which a variable is kept. */
  function Target(key: string): string { if key == CUDA_DEVICES then NVIDIA_DEVICES else key }

  datatype Variable = Variable(key: string, value: string)

  /** The variable of a line of the form `key=value`, with no further `=`, if it is wanted. */
  ghost predicate Declares(line: string, v: Variable) {
    line == v.key + "=" + v.value && '=' !in v.key && '=' !in v.value && Wanted(v.key)
  }

  /** A line writes a value to a key. */
  ghost predicate Writes(line: string, key: string, value: string) {
    exists v :: Declares(line, v) && Target(v.key) == key && v.value == value
  }

  /** The last line that writes to a key decides its value; keys that no line writes to are absent. */
  ghost predicate LastWriterWins(lines: seq<string>, env: map<string, string>) {
    forall key ::
      && (key in env ==> exists i :: 0 <= i < |lines| && LastWrite(lines, i, key, env[key]))
      && (key !in env ==> forall i, value :: 0 <= i < |lines| ==> !Writes(lines[i], key, value))
  }

  ghost predicate LastWrite(lines: seq<string>, i: nat, key: string, value: string)
    requires i < |lines|
  {
    Writes(lines[i], key, value) && forall j, other :: i < j < |lines| ==> !Writes(lines[j], key, other)
  }

  // ----- Lines with exactly one `=` -----------------------------------------------------------------

  lemma NoEquals(s: string)
    ensures |Split(s, "=")| == 1 <==> '=' !in s
    ensures '=' !in s ==> Split(s, "=") == [s]
  {
    IndexOfChar(s, '=');
  }

  /** A line splits into two pieces exactly if it is a key and a value without further `=`. */
  lemma TwoPieces(line: string)
    ensures var p := Split(line, "=");
      |p| == 2 ==> line == p[0] + "=" + p[1] && '=' !in p[0] && '=' !in p[1]
  {
    IndexOfChar(line, '=');
    if IndexOf(line, "=").Some? {
      var i := IndexOf(line, "=").value;
      NoEquals(line[i + 1..]);
      assert line == line[..i] + "=" + line[i + 1..];
    }
  }

  lemma DeclaredPieces(line: string, v: Variable)
    requires Declares(line, v)
    ensures Split(line, "=") == [v.key, v.value]
  {
    SplitAfter(v.key, "=", v.value);
    SplitNone(v.value, "=");
  }

  // ----- The code ----------------------------------------------------------------------------

  /** The variable that one turn of the loop keeps. */
  method ReadLine(line: string) returns (r: Option<Variable>)
    ensures forall key, value :: Writes(line, key, value) <==> r == Some(Variable(key, value))
  {
    TwoPieces(line);
    forall v | Declares(line, v) ensures Split(line, "=") == [v.key, v.value] { DeclaredPieces(line, v); }
    var keyvalue := Split(line, "=");
    if |keyvalue| != 2 { return None; }
    var key, value := keyvalue[0], keyvalue[1];
    var isUse := false;
    if HasPrefix(key, "SLURM_") { isUse := true; }
    if HasPrefix(key, "CUDA_") { isUse := true; }
    if !isUse { return None; }
    assert Declares(line, Variable(key, value));
    r := if key == CUDA_DEVICES then Some(Variable(NVIDIA_DEVICES, value)) else Some(Variable(key, value));
  }

  lemma NextWrite(lines: seq<string>, line: string, env: map<string, string>, r: Option<Variable>)
    requires LastWriterWins(lines, env)
    requires forall key, value :: Writes(line, key, value) <==> r == Some(Variable(key, value))
    ensures LastWriterWins(lines + [line], if r.Some? then env[r.value.key := r.value.value] else env)
  {
    var lines', n := lines + [line], |lines|;
    var env' := if r.Some? then env[r.value.key := r.value.value] else env;
    forall key | key in env' ensures exists i :: 0 <= i < |lines'| && LastWrite(lines', i, key, env'[key]) {
      if r.Some? && r.value.key == key {
        assert LastWrite(lines', n, key, env'[key]);
      } else {
        var i :| 0 <= i < n && LastWrite(lines, i, key, env[key]);
        assert LastWrite(lines', i, key, env'[key]);
      }
    }
  }

  /** For every output of `env`, the extracted map is the one in which the last writer of a key wins. */
  method Extract(out: string) returns (env: map<string, string>)
    ensures LastWriterWins(Split(out, "\n"), env)
  {
    env := map[];
    var lines := Split(out, "\n");
    for i := 0 to |lines|
      invariant LastWriterWins(lines[..i], env)
    {
      var r := ReadLine(lines[i]);
      NextWrite(lines[..i], lines[i], env, r);
      assert lines[..i + 1] == lines[..i] + [lines[i]];
      if r.Some? { env := env[r.value.key := r.value.value]; }
    }
    assert lines[..|lines|] == lines;
  }

  // ----- What the map holds ----------------------------------------------------------------------

  /** The specification determines the map. */
  lemma LastWriterIsUnique(lines: seq<string>, env: map<string, string>, env': map<string, string>)
    requires LastWriterWins(lines, env) && LastWriterWins(lines, env')
    ensures env == env'
  {
    forall key | key in env ensures key in env' && env'[key] == env[key] {
      var i :| 0 <= i < |lines| && LastWrite(lines, i, key, env[key]);
      assert key in env';
      var j :| 0 <= j < |lines| && LastWrite(lines, j, key, env'[key]);
      assert i == j;
      WritesOneValue(lines[i], key, env[key], env'[key]);
    }
    forall key | key in env' ensures key in env {
      var i :| 0 <= i < |lines| && LastWrite(lines, i, key, env'[key]);
    }
  }

  lemma WritesOneValue(line: string, key: string, value: string, value': string)
    requires Writes(line, key, value) && Writes(line, key, value')
    ensures value == value'
  {
    var v :| Declares(line, v) && Target(v.key) == key && v.value == value;
    var v' :| Declares(line, v') && Target(v'.key) == key && v'.value == value';
    DeclaredPieces(line, v);
    DeclaredPieces(line, v');
  }

  /** `CUDA_VISIBLE_DEVICES` is never a key; the only other key without one of the two prefixes is
      `NVIDIA_VISIBLE_DEVICES`. */
  lemma KeysOf(lines: seq<string>, env: map<string, string>, key: string)
    requires LastWriterWins(lines, env) && key in env
    ensures key != "CUDA_VISIBLE_DEVICES"
    ensures key == "NVIDIA_VISIBLE_DEVICES" || "SLURM_" <= key || "CUDA_" <= key
  {
    var i :| 0 <= i < |lines| && LastWrite(lines, i, key, env[key]);
    var v :| Declares(lines[i], v) && Target(v.key) == key && v.value == env[key];
    assert NVIDIA_DEVICES[0] != CUDA_DEVICES[0];
  }

  /** Line `i` gives the variable `name` a value, and no later line gives it one. */
  ghost predicate LastLineOf(lines: seq<string>, i: nat, name: string, value: string)
    requires i < |lines|
  {
    && lines[i] == name + "=" + value && '=' !in value
    && forall j, other :: i < j < |lines| && lines[j] == name + "=" + other ==> '=' in other
  }

  /** If the lines that write to `key` are those that give `name` a value, the last of these decides. */
  lemma LastLineDecides(lines: seq<string>, env: map<string, string>, name: string, key: string, value: string)
    requires LastWriterWins(lines, env)
    requires forall line, v :: Writes(line, key, v) <==> line == name + "=" + v && '=' !in v
    ensures key in env && env[key] == value <==> exists i :: 0 <= i < |lines| && LastLineOf(lines, i, name, value)
  {
    if i :| 0 <= i < |lines| && LastLineOf(lines, i, name, value) {
      assert Writes(lines[i], key, value);
      assert key in env;
      var j :| 0 <= j < |lines| && LastWrite(lines, j, key, env[key]);
      assert Writes(lines[j], key, env[key]);
      assert i == j;
      WritesOneValue(lines[i], key, value, env[key]);
    }
    if key in env && env[key] == value {
      var i :| 0 <= i < |lines| && LastWrite(lines, i, key, value);
      assert Writes(lines[i], key, value);
      forall j, other | i < j < |lines| && lines[j] == name + "=" + other ensures '=' in other {
        assert !Writes(lines[j], key, other);
      }
      assert LastLineOf(lines, i, name, value);
    }
  }

  /** `NVIDIA_VISIBLE_DEVICES` is there exactly when some line is well-formed for `CUDA_VISIBLE_DEVICES`, and has the
      value of the last such line. */
  lemma VisibleDevices(lines: seq<string>, env: map<string, string>, value: string)
    requires LastWriterWins(lines, env)
    ensures "NVIDIA_VISIBLE_DEVICES" in env && env["NVIDIA_VISIBLE_DEVICES"] == value <==>
            exists i :: 0 <= i < |lines| && LastLineOf(lines, i, "CUDA_VISIBLE_DEVICES", value)
  {
    forall line, v ensures Writes(line, NVIDIA_DEVICES, v) <==> line == CUDA_DEVICES + "=" + v && '=' !in v {
      DevicesAreWritten(line, v);
    }
    LastLineDecides(lines, env, CUDA_DEVICES, NVIDIA_DEVICES, value);
  }

  /** Every other variable with one of the two prefixes is there exactly when some line is well-formed for it, and has
      the value of the last such line. */
  lemma OtherVariables(lines: seq<string>, env: map<string, string>, key: string, value: string)
    requires LastWriterWins(lines, env) && '=' !in key && key != "CUDA_VISIBLE_DEVICES"
    requires "SLURM_" <= key || "CUDA_" <= key
    ensures key in env && env[key] == value <==> exists i :: 0 <= i < |lines| && LastLineOf(lines, i, key, value)
  {
    forall line, v ensures Writes(line, key, v) <==> line == key + "=" + v && '=' !in v {
      VariableIsWritten(line, key, v);
    }
    LastLineDecides(lines, env, key, key, value);
  }

  lemma VariableIsWritten(line: string, key: string, value: string)
    requires Wanted(key) && '=' !in key && key != CUDA_DEVICES
    ensures Writes(line, key, value) <==> line == key + "=" + value && '=' !in value
  {
    assert NVIDIA_DEVICES[0] == 'N' && "SLURM_"[0] == 'S' && "CUDA_"[0] == 'C';
    if Writes(line, key, value) {
      var v :| Declares(line, v) && Target(v.key) == key && v.value == value;
    }
    if line == key + "=" + value && '=' !in value {
      assert Declares(line, Variable(key, value)) && Target(key) == key;
    }
  }

  lemma DevicesAreWritten(line: string, value: string)
    ensures Writes(line, NVIDIA_DEVICES, value) <==> line == CUDA_DEVICES + "=" + value && '=' !in value
  {
    if Writes(line, NVIDIA_DEVICES, value) {
      var v :| Declares(line, v) && Target(v.key) == NVIDIA_DEVICES && v.value == value;
      assert NVIDIA_DEVICES[0] == 'N' && "SLURM_"[0] == 'S' && "CUDA_"[0] == 'C';
      assert v.key == CUDA_DEVICES;
    }
    if line == CUDA_DEVICES + "=" + value && '=' !in value {
      assert Declares(line, Variable(CUDA_DEVICES, value)) && Target(CUDA_DEVICES) == NVIDIA_DEVICES;
    }
  }
}
