/** The staged unit fragment of deploy/bootstrap_native.py: `unit_candidate`. */
module UnitFragment {
  import opened Options

  predicate White(c: char) {
    c == ' ' || c == '\t' || c == '\n' || c == '\r'
  }

  function StripLeft(s: string): string {
    if s != "" && White(s[0]) then StripLeft(s[1..]) else s
  }

  function StripRight(s: string): string {
    if s != "" && White(s[|s| - 1]) then StripRight(s[..|s| - 1]) else s
  }

  function Strip(s: string): string {
    StripRight(StripLeft(s))
  }

  predicate Header(line: string) {
    "[" <= Strip(line)
  }

  /** The section that line i stands in: the last header at or before it. */
  function SectionAt(lines: seq<string>, i: nat): Option<string>
    requires i <= |lines|
  {
    if i == 0 then None
    else if Header(lines[i - 1]) then Some(Strip(lines[i - 1]))
    else SectionAt(lines, i - 1)
  }

  /** Line i is a Restart directive of the service section. */
  predicate Directive(lines: seq<string>, i: nat)
    requires i < |lines|
  {
    SectionAt(lines, i + 1) == Some("[Service]") && "Restart=" <= Strip(lines[i])
  }

  predicate Binds(line: string, environment: string) {
    Strip(line) == "EnvironmentFile=" + environment
  }

  /** The only change that staging makes to a unit: one directive, at d, becomes two lines. */
  predicate Narrow(lines: seq<string>, environment: string, output: seq<string>, d: nat) {
    && d < |lines|
    && (forall i | 0 <= i < |lines| :: Directive(lines, i) <==> i == d)
    && output == lines[..d] + ["Restart=no\n", "EnvironmentFile=" + environment + "\n"] + lines[d + 1..]
  }

  /**
   `unit_candidate`: it succeeds exactly when the environment file is not bound yet and the service section
   has exactly one Restart directive, and then changes that directive and nothing else.
   */
  method UnitCandidate(lines: seq<string>, environment: string) returns (output: Option<seq<string>>)
    ensures output.Some? <==>
              (forall i | 0 <= i < |lines| :: !Binds(lines[i], environment))
              && (exists d :: 0 <= d < |lines| && Directive(lines, d)
                              && forall i | 0 <= i < |lines| :: Directive(lines, i) ==> i == d)
    ensures output.Some? ==> exists d: nat :: Narrow(lines, environment, output.value, d)
  {
    hide Strip;
    var section: Option<string> := None;
    var found, result := 0, [];
    ghost var at: nat := 0;
    for i := 0 to |lines|
      invariant section == SectionAt(lines, i)
      invariant forall k | 0 <= k < i :: !Binds(lines[k], environment)
      invariant found == 0 ==> result == lines[..i] && forall k | 0 <= k < i :: !Directive(lines, k)
      invariant found >= 1 ==> at < i && Directive(lines, at)
      invariant found == 1 ==> forall k | 0 <= k < i :: Directive(lines, k) ==> k == at
      invariant found == 1 ==>
                  result == lines[..at] + ["Restart=no\n", "EnvironmentFile=" + environment + "\n"] + lines[at + 1..i]
      invariant found >= 2 ==> exists k :: 0 <= k < i && k != at && Directive(lines, k)
    {
      if Header(lines[i]) {
        section := Some(Strip(lines[i]));
      }
      if Binds(lines[i], environment) {
        return None;
      }
      if section == Some("[Service]") && "Restart=" <= Strip(lines[i]) {
        assert Directive(lines, i);
        found := found + 1;
        if found == 1 {
          at := i;
        }
        result := result + ["Restart=no\n", "EnvironmentFile=" + environment + "\n"];
      } else {
        assert !Directive(lines, i);
        result := result + [lines[i]];
      }
    }
    if found != 1 {
      return None;
    }
    assert lines[at + 1..|lines|] == lines[at + 1..];
    assert Narrow(lines, environment, result, at);
    return Some(result);
  }

  /** The candidate binds the attempt's environment file, so a second pass over it refuses. */
  lemma NarrowBinds(lines: seq<string>, environment: string, output: seq<string>, d: nat)
    requires Narrow(lines, environment, output, d)
    requires environment != "" && !White(environment[|environment| - 1])
    ensures exists i :: 0 <= i < |output| && Binds(output[i], environment)
  {
    var line := "EnvironmentFile=" + environment + "\n";
    assert output[d + 1] == line;
    var text := "EnvironmentFile=" + environment;
    assert StripLeft(line) == line;
    assert line[..|line| - 1] == text && text[|text| - 1] == environment[|environment| - 1];
    assert StripRight(line) == StripRight(text) == text;
    assert Binds(output[d + 1], environment);
  }
}
