/** The admin server's policy on proposed patches (admin-server/server.js):
    the allow-list of path prefixes, the files a unified diff touches, the
    path check and the size ceiling. */
module PatchPolicy {
  import opened Strings

  /** Allow-list used when ALLOWED_PREFIXES is unset or empty. */
  const DefaultAllowedPrefixes: string := "frontend/,README.md,.gitignore"

  /** Size ceiling used when MAX_PATCH_BYTES is unset or empty. */
  const DefaultMaxPatchBytes: nat := 200000

  /** The header that introduces the new-file side of a file in a unified diff. */
  const NewFileMarker: string := "+++ b/"

  /** The path git writes for the missing side of an added or deleted file. */
  const NullDevice: string := "/dev/null"

  /** The trimmed, non-empty entries of a list of comma-separated pieces, in order. */
  function NonBlankEntries(pieces: seq<string>): (prefixes: seq<string>)
    ensures |prefixes| <= |pieces|
    ensures forall k :: 0 <= k < |prefixes| ==> prefixes[k] != [] && IsTrimmed(prefixes[k])
  {
    if pieces == [] then []
    else
      var head := Trim(pieces[0]);
      if head == [] then NonBlankEntries(pieces[1..]) else [head] + NonBlankEntries(pieces[1..])
  }

  /** An entry is kept exactly when it is the non-empty trim of some piece. */
  lemma {:induction false} NonBlankEntriesMembership(pieces: seq<string>, x: string)
    ensures x in NonBlankEntries(pieces) <==> x != [] && exists k :: 0 <= k < |pieces| && Trim(pieces[k]) == x
    decreases |pieces|
  {
    if pieces != [] {
      var tail := pieces[1..];
      NonBlankEntriesMembership(tail, x);
      if exists k :: 0 <= k < |pieces| && Trim(pieces[k]) == x {
        var k :| 0 <= k < |pieces| && Trim(pieces[k]) == x;
        if k > 0 { assert Trim(tail[k - 1]) == x; }
      }
      if exists k :: 0 <= k < |tail| && Trim(tail[k]) == x {
        var k :| 0 <= k < |tail| && Trim(tail[k]) == x;
        assert Trim(pieces[k + 1]) == x;
      }
    }
  }

  /** ALLOWED_PREFIXES: the config string split on commas, each entry trimmed,
      empty entries dropped. An unset or empty variable means the default list. */
  function AllowedPrefixes(env: Option<string>): (prefixes: seq<string>)
    ensures forall k :: 0 <= k < |prefixes| ==> prefixes[k] != []
  {
    var config := if env.Some? && env.value != [] then env.value else DefaultAllowedPrefixes;
    NonBlankEntries(Split(config, ","))
  }

  /** A configured prefix is exactly a non-empty trimmed comma-separated entry. */
  lemma AllowedPrefixesMembership(config: string, x: string)
    requires config != []
    ensures x in AllowedPrefixes(Some(config)) <==>
              x != [] && exists k :: 0 <= k < |Split(config, ",")| && Trim(Split(config, ",")[k]) == x
  {
    assert AllowedPrefixes(Some(config)) == NonBlankEntries(Split(config, ","));
    NonBlankEntriesMembership(Split(config, ","), x);
  }

  /** The file a diff line names on its new-file side, unless it is the null device. */
  function FileOfLine(line: string): Option<string>
  {
    if StartsWith(line, NewFileMarker) then
      // line.replace("+++ b/", "") removes the first occurrence, which is the prefix
      var file := Trim(line[|NewFileMarker|..]);
      if file != NullDevice then Some(file) else None
    else None
  }

  /** The files named by a list of lines, in line order, duplicates kept. */
  function FilesOfLines(lines: seq<string>): seq<string>
    decreases |lines|
  {
    if lines == [] then []
    else
      var last := FileOfLine(lines[|lines| - 1]);
      FilesOfLines(lines[..|lines| - 1]) + (if last.Some? then [last.value] else [])
  }

  /** The files a patch touches: what extractTouchedFiles returns. */
  function TouchedFiles(patch: string): seq<string>
  {
    FilesOfLines(Split(patch, "\n"))
  }

  /** Collecting over concatenated line lists concatenates the collections:
      order is the line order and repeated files are not merged. */
  lemma {:induction false} FilesOfLinesAppend(a: seq<string>, b: seq<string>)
    ensures FilesOfLines(a + b) == FilesOfLines(a) + FilesOfLines(b)
    decreases |b|
  {
    if b == [] {
      assert a + b == a;
    } else {
      assert (a + b)[..|a + b| - 1] == a + b[..|b| - 1];
      assert (a + b)[|a + b| - 1] == b[|b| - 1];
      FilesOfLinesAppend(a, b[..|b| - 1]);
    }
  }

  /** A path is listed exactly when some line names it. */
  lemma {:induction false} FilesOfLinesMembership(lines: seq<string>, f: string)
    ensures f in FilesOfLines(lines) <==> exists k :: 0 <= k < |lines| && FileOfLine(lines[k]) == Some(f)
    decreases |lines|
  {
    if lines != [] {
      var n := |lines| - 1;
      var init := lines[..n];
      var last := FileOfLine(lines[n]);
      FilesOfLinesMembership(init, f);
      assert FilesOfLines(lines) == FilesOfLines(init) + (if last.Some? then [last.value] else []);
      assert f in FilesOfLines(lines) <==> f in FilesOfLines(init) || last == Some(f);
      assert (exists k :: 0 <= k < |lines| && FileOfLine(lines[k]) == Some(f)) <==>
             (exists k :: 0 <= k < n && FileOfLine(init[k]) == Some(f)) || last == Some(f) by {
        forall k | 0 <= k < n ensures init[k] == lines[k] {}
      }
    }
  }

  /** Every touched file is the trimmed remainder of a "+++ b/" line of the
      patch, never the null device; and every such line contributes its file. */
  lemma TouchedFilesCharacterization(patch: string, f: string)
    ensures f in TouchedFiles(patch) <==>
              exists k :: 0 <= k < |Split(patch, "\n")| && StartsWith(Split(patch, "\n")[k], NewFileMarker)
                          && f == Trim(Split(patch, "\n")[k][|NewFileMarker|..]) && f != NullDevice
  {
    var lines := Split(patch, "\n");
    FilesOfLinesMembership(lines, f);
    forall k | 0 <= k < |lines|
      ensures FileOfLine(lines[k]) == Some(f) <==>
                StartsWith(lines[k], NewFileMarker) && f == Trim(lines[k][|NewFileMarker|..]) && f != NullDevice
    {
    }
  }

  /** extractTouchedFiles: scan the lines and push every named file. */
  method ExtractTouchedFiles(patch: string) returns (files: seq<string>)
    ensures files == TouchedFiles(patch)
  {
    var lines := Split(patch, "\n");
    files := [];
    var i := 0;
    while i < |lines|
      invariant 0 <= i <= |lines|
      invariant files == FilesOfLines(lines[..i])
    {
      var line := lines[i];
      if StartsWith(line, NewFileMarker) {
        var file := Trim(line[|NewFileMarker|..]);
        if file != NullDevice {
          files := files + [file];
        }
      }
      assert lines[..i + 1][..i] == lines[..i];
      i := i + 1;
    }
    assert lines[..|lines|] == lines;
  }

  /** isAllowedPath: ALLOWED_PREFIXES.some(p => file === p || file.startsWith(p)). */
  function IsAllowedPath(prefixes: seq<string>, file: string): (ok: bool)
    ensures ok <==> exists k :: 0 <= k < |prefixes| && (file == prefixes[k] || StartsWith(file, prefixes[k]))
  {
    if prefixes == [] then false
    else
      var rest := IsAllowedPath(prefixes[1..], file);
      assert forall k :: 1 <= k < |prefixes| ==> prefixes[1..][k - 1] == prefixes[k];
      (file == prefixes[0] || StartsWith(file, prefixes[0])) || rest
  }

  /** The equality test is subsumed by the prefix test: a path is allowed
      exactly when some allowed prefix is a prefix of it. */
  lemma AllowedIffSomePrefix(prefixes: seq<string>, file: string)
    ensures IsAllowedPath(prefixes, file) <==> exists p :: p in prefixes && StartsWith(file, p)
  {
    if IsAllowedPath(prefixes, file) {
      var k :| 0 <= k < |prefixes| && (file == prefixes[k] || StartsWith(file, prefixes[k]));
      assert prefixes[k] in prefixes && StartsWith(file, prefixes[k]);
    }
  }

  /** The allow-list is a union: a path is allowed by two lists of prefixes
      together exactly when one of them allows it, so adding prefixes never
      disallows a path. */
  lemma AllowedUnion(p: seq<string>, q: seq<string>, file: string)
    ensures IsAllowedPath(p + q, file) <==> IsAllowedPath(p, file) || IsAllowedPath(q, file)
  {
    if IsAllowedPath(p + q, file) {
      var k :| 0 <= k < |p + q| && (file == (p + q)[k] || StartsWith(file, (p + q)[k]));
      if k < |p| {
        assert (p + q)[k] == p[k];
      } else {
        assert (p + q)[k] == q[k - |p|];
      }
    }
    if IsAllowedPath(p, file) {
      var k :| 0 <= k < |p| && (file == p[k] || StartsWith(file, p[k]));
      assert (p + q)[k] == p[k];
    }
    if IsAllowedPath(q, file) {
      var k :| 0 <= k < |q| && (file == q[k] || StartsWith(file, q[k]));
      assert (p + q)[k + |p|] == q[k];
    }
  }

  /** files.filter(f => !isAllowedPath(f)): the offending files, in order. */
  function Disallowed(prefixes: seq<string>, files: seq<string>): (bad: seq<string>)
    ensures |bad| <= |files|
    ensures forall f :: f in bad <==> f in files && !IsAllowedPath(prefixes, f)
    ensures bad == [] <==> forall k :: 0 <= k < |files| ==> IsAllowedPath(prefixes, files[k])
  {
    if files == [] then []
    else
      var rest := Disallowed(prefixes, files[1..]);
      assert forall f :: f in files <==> f == files[0] || f in files[1..];
      assert forall k :: 1 <= k < |files| ==> files[1..][k - 1] == files[k];
      if IsAllowedPath(prefixes, files[0]) then rest else [files[0]] + rest
  }

  /** Filtering concatenated lists concatenates the results (order is kept). */
  lemma {:induction false} DisallowedAppend(prefixes: seq<string>, a: seq<string>, b: seq<string>)
    ensures Disallowed(prefixes, a + b) == Disallowed(prefixes, a) + Disallowed(prefixes, b)
    decreases |a|
  {
    if a == [] {
      assert a + b == b;
    } else {
      assert (a + b)[0] == a[0];
      assert (a + b)[1..] == a[1..] + b;
      DisallowedAppend(prefixes, a[1..], b);
    }
  }

  /** The size gate: Buffer.byteLength(patch, "utf8") > MAX_PATCH_BYTES rejects. */
  predicate TooLarge(patch: string, maxBytes: nat) {
    Utf8Length(patch) > maxBytes
  }

  /** A patch with more characters than the ceiling is always too large,
      and an ASCII patch is too large exactly when it has more characters. */
  lemma TooLargeByLength(patch: string, maxBytes: nat)
    ensures |patch| > maxBytes ==> TooLarge(patch, maxBytes)
    ensures (forall i :: 0 <= i < |patch| ==> patch[i] as int < 0x80) ==>
              (TooLarge(patch, maxBytes) <==> |patch| > maxBytes)
  {
    Utf8LengthBounds(patch);
    if forall i :: 0 <= i < |patch| ==> patch[i] as int < 0x80 {
      Utf8LengthAscii(patch);
    }
  }
}
