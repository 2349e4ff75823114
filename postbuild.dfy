/**
 * The post-build step (scripts/postbuild.mjs): the compiled CLI entry point
 * gets a `#!/usr/bin/env node` line unless it already starts with `#!`, and
 * is then made executable.
 *
 * The file is the value read (None when the read throws); whether the write
 * and the chmod succeed are parameters. The console messages are left out.
 */
module Postbuild {
  import opened Optional

  const Shebang: string := "#!/usr/bin/env node\n"

  /** `0o755`, rwxr-xr-x. */
  const Executable: nat := 0x1ED

  /** `content.startsWith('#!')`. */
  predicate HasShebang(content: string)
  {
    |content| >= 2 && content[..2] == "#!"
  }

  /** The content the script leaves in the file. */
  function Inject(content: string): (r: string)
  {
    if HasShebang(content) then content else Shebang + content
  }

  /** What the run leaves behind: the file's content and mode, and the exit code. */
  datatype Outcome = Outcome(content: Option<string>, mode: Option<nat>, exitCode: nat)

  /**
   * One run of the script on the file's current content `read` (None: the
   * read failed) and its mode. A write happens only when a shebang is added.
   */
  function Run(read: Option<string>, mode: nat, writeOk: bool, chmodOk: bool): (o: Outcome)
    ensures o.exitCode == 0 <==> read.Some? && (HasShebang(read.value) || writeOk) && chmodOk
    ensures o.exitCode == 0 ==> o.content == Some(Inject(read.value)) && o.mode == Some(Executable)
    ensures o.exitCode != 0 ==> o.exitCode == 1
    ensures o.content != read ==> read.Some? && writeOk && o.content == Some(Shebang + read.value)
    ensures o.mode != Some(mode) ==> chmodOk && o.mode == Some(Executable)
  {
    match read
    case None => Outcome(None, Some(mode), 1)
    case Some(content) =>
      if HasShebang(content) then
        if chmodOk then Outcome(read, Some(Executable), 0) else Outcome(read, Some(mode), 1)
      else if !writeOk then Outcome(read, Some(mode), 1)
      else
        var written := Shebang + content;
        if chmodOk then Outcome(Some(written), Some(Executable), 0) else Outcome(Some(written), Some(mode), 1)
  }

  /**
   * The transform always yields a file starting with `#!`, keeps the
   * original content as its suffix, leaves content that already has a
   * shebang alone, and is idempotent.
   */
  lemma InjectProperties(content: string)
    ensures HasShebang(Inject(content))
    ensures var r := Inject(content); |r| >= |content| && r[|r| - |content|..] == content
    ensures HasShebang(content) <==> Inject(content) == content
    ensures !HasShebang(content) ==> Inject(content) == Shebang + content
    ensures Inject(Inject(content)) == Inject(content)
  {
    var r := Inject(content);
    assert (Shebang + content)[..2] == "#!";
    if !HasShebang(content) {
      assert r == Shebang + content && |r| > |content|;
      assert r[|r| - |content|..] == content;
    }
  }

  /** A successful run leaves the transformed content, executable; a second run writes nothing more. */
  lemma RunTwice(content: string, mode: nat)
    ensures var first := Run(Some(content), mode, true, true);
            && first == Outcome(Some(Inject(content)), Some(Executable), 0)
            && Run(first.content, Executable, true, true) == first
  {
    InjectProperties(content);
  }
}
