/** The TTF-to-SFD converter: the font files of one split are shared out
    among worker processes by index, and each worker writes, for every font
    it can open and every character of the charset, a one-glyph SFD font and
    a description file. FontForge is an oracle; the files written are a map
    from path to content held by a `Disk`. */
module FontConvert {
  import opened Wrappers
  import opened Decimal
  import opened Text
  import opened Schedule
  import opened FontNames

  /** The command-line options the converter reads; `ref_nshot` is taken as
      given. */
  datatype Options = Options(language: string, ttfPath: string, sfdPath: string, split: string, refNshot: int)

  /** What every worker shares: the font and output directories of the
      language, the split, the Thai set, the charset and `charset_lenw`. */
  datatype Job = Job(fontsDir: string, sfdDir: string, split: string, th: string, charset: string, width: nat)

  function MakeJob(opts: Options, th: string, eng: string): Job {
    var charset := Charset(th, eng, opts.refNshot);
    Job(Join(opts.ttfPath, opts.language), Join(opts.sfdPath, opts.language), opts.split,
        th, charset, CharIdWidth(charset))
  }

  /** FontForge as an oracle, by font file path and glyph name: whether the
      font opens, whether selecting, copying, pasting and saving the glyph
      succeeds, and the pasted glyph's width and vertical width. */
  datatype FontForge = FontForge(
    opens: string -> bool,
    copies: (string, string) -> bool,
    width: (string, string) -> int,
    vwidth: (string, string) -> int)

  /** A file the converter writes: a description text, or an SFD font named
      `fontname` that holds the glyph `glyph` of the font file `source`. */
  datatype OutFile = TextFile(text: string) | GlyphFont(fontname: string, source: string, glyph: string)

  type Files = map<string, OutFile>

  // ---------------------------------------------------------------------
  // Paths

  function FontPath(job: Job, fontName: string): string {
    Join(Join(job.fontsDir, job.split), fontName)
  }

  function TargetDir(job: Job, fontId: string): string {
    Join(Join(job.sfdDir, job.split), fontId)
  }

  /** The output file of character `charId` of font file `fontName` with
      extension `ext`. */
  function OutPath(job: Job, fontName: string, charId: nat, ext: string): string {
    var id := FontId(fontName);
    Join(TargetDir(job, id), OutputName(id, charId, job.width, ext))
  }

  /** Within one font, the `.txt` and `.sfd` files of all characters are
      pairwise different paths. */
  lemma OutPathsDistinct(job: Job, fontName: string, a: nat, b: nat, e1: string, e2: string)
    requires '/' !in fontName && job.width == CharIdWidth(job.charset)
    requires a < |job.charset| && b < |job.charset| && |e1| == |e2|
    ensures OutPath(job, fontName, a, e1) == OutPath(job, fontName, b, e2) <==> a == b && e1 == e2
  {
    var id := FontId(fontName);
    OutputNameRelative(fontName, a, job.width, e1);
    OutputNameRelative(fontName, b, job.width, e2);
    JoinInjective(TargetDir(job, id), OutputName(id, a, job.width, e1), OutputName(id, b, job.width, e2));
    OutputNameInjective(job.charset, id, a, b, e1, e2);
  }

  /** The directory prefix every output path of a job starts with. */
  function SplitPrefix(job: Job): string {
    var d := Join(job.sfdDir, job.split);
    if d == [] || d[|d| - 1] == '/' then d else d + "/"
  }

  /** What follows the job's prefix in an output path: the font id and a
      `/` (when the id is not empty), then the file name. */
  function IdTail(id: string, name: string): string {
    if id == [] then name else id + "/" + name
  }

  lemma OutPathShape(job: Job, fontName: string, charId: nat, ext: string)
    requires '/' !in fontName
    ensures var id := FontId(fontName);
      OutPath(job, fontName, charId, ext) == SplitPrefix(job) + IdTail(id, OutputName(id, charId, job.width, ext))
  {
    var id, p := FontId(fontName), SplitPrefix(job);
    var name := OutputName(id, charId, job.width, ext);
    FontIdPrefix(fontName);
    OutputNameRelative(fontName, charId, job.width, ext);
    if id == [] {
      assert TargetDir(job, id) == p;
      assert Join(p, name) == p + name;
    } else {
      assert id[0] == fontName[0] && id[|id| - 1] == fontName[|id| - 1];
      assert TargetDir(job, id) == p + id;
      assert Join(p + id, name) == p + (id + "/" + name);
    }
  }

  /** Two font files whose names agree up to the first `.` share their
      target directory and every output path: `Kanit.Bold.ttf` and
      `Kanit.Regular.ttf` both write `Kanit/Kanit_00.txt`. */
  lemma SharedIdCollides(job: Job, charId: nat, ext: string)
    ensures FontId("Kanit.Bold.ttf") == FontId("Kanit.Regular.ttf") == "Kanit"
    ensures OutPath(job, "Kanit.Bold.ttf", charId, ext) == OutPath(job, "Kanit.Regular.ttf", charId, ext)
  {
    var stem := "Kanit";
    assert forall k :: 0 <= k < |stem| ==> stem[k] != '.';
    assert "Kanit.Bold.ttf" == stem + ['.'] + "Bold.ttf";
    assert "Kanit.Regular.ttf" == stem + ['.'] + "Regular.ttf";
    SplitCons(stem, '.', "Bold.ttf");
    SplitCons(stem, '.', "Regular.ttf");
  }

  /** Font files with different font ids never write to the same path. */
  lemma FontsApart(job: Job, f1: string, f2: string, a: nat, b: nat, e1: string, e2: string)
    requires '/' !in f1 && '/' !in f2 && '/' !in e1 && '/' !in e2
    requires FontId(f1) != FontId(f2)
    ensures OutPath(job, f1, a, e1) != OutPath(job, f2, b, e2)
  {
    var id1, id2 := FontId(f1), FontId(f2);
    var n1, n2 := OutputName(id1, a, job.width, e1), OutputName(id2, b, job.width, e2);
    OutPathShape(job, f1, a, e1);
    OutPathShape(job, f2, b, e2);
    IdHasNoSlash(f1);
    IdHasNoSlash(f2);
    if id1 == [] {
      NoSlashInName(id1, a, job.width, e1);
    }
    if id2 == [] {
      NoSlashInName(id2, b, job.width, e2);
    }
    TailsDiffer(id1, n1, id2, n2);
    var p := SplitPrefix(job);
    var t1, t2 := IdTail(id1, n1), IdTail(id2, n2);
    assert t1 == (p + t1)[|p|..] && t2 == (p + t2)[|p|..];
  }

  /** The tails of two different slash-free font ids differ. */
  lemma TailsDiffer(id1: string, n1: string, id2: string, n2: string)
    requires '/' !in id1 && '/' !in id2 && id1 != id2
    requires id1 == [] ==> '/' !in n1
    requires id2 == [] ==> '/' !in n2
    ensures IdTail(id1, n1) != IdTail(id2, n2)
  {
    if id1 != [] && id2 != [] {
      if id1 + "/" + n1 == id2 + "/" + n2 {
        SlashAfterId(id1, n1, id2, n2);
      }
    } else if id1 == [] {
      assert (id2 + "/" + n2)[|id2|] == '/';
    } else {
      assert (id1 + "/" + n1)[|id1|] == '/';
    }
  }

  /** A font id holds no `/` when its file name holds none. */
  lemma IdHasNoSlash(fontName: string)
    requires '/' !in fontName
    ensures '/' !in FontId(fontName)
  {
    FontIdPrefix(fontName);
    var id := FontId(fontName);
    assert id == fontName[..|id|];
  }

  /** Texts that start with a slash-free id and a `/` are equal only when
      the ids are. */
  lemma SlashAfterId(x: string, u: string, y: string, v: string)
    requires '/' !in x && '/' !in y
    requires x + "/" + u == y + "/" + v
    ensures x == y
  {
    var s := x + "/" + u;
    SlashIndex(x, u);
    SlashIndex(y, v);
    assert x == s[..|x|] && y == s[..|y|];
  }

  /** The first `/` after a slash-free id is the one that ends it. */
  lemma SlashIndex(x: string, u: string)
    requires '/' !in x
    ensures '/' in x + "/" + u && IndexOf(x + "/" + u, '/') == |x|
  {
    var s := x + "/" + u;
    assert s[|x|] == '/';
    assert s[..|x|] == x;
  }

  /** The file name of an empty font id holds no `/`. */
  lemma NoSlashInName(id: string, charId: nat, width: nat, ext: string)
    requires id == [] && '/' !in ext
    ensures '/' !in OutputName(id, charId, width, ext)
  {
    PadRoundTrip(charId, width);
    var name := OutputName(id, charId, width, ext);
    var pad := Pad(charId, width);
    assert name == "_" + pad + ext;
    forall i | 0 <= i < |name|
      ensures name[i] != '/'
    {
      if 1 <= i < 1 + |pad| {
        assert name[i] == pad[i - 1] && IsDigit(pad[i - 1]);
      } else if i >= 1 + |pad| {
        assert name[i] == ext[i - 1 - |pad|];
      }
    }
  }

  // ---------------------------------------------------------------------
  // What converting writes

  /** One pass of the character loop: the description file is opened (and so
      emptied) first; if FontForge copies the glyph, the SFD font is saved and
      the five-line description written, otherwise the exception is caught
      and the description file stays empty. */
  function CharStep(files: Files, ff: FontForge, job: Job, fontName: string, charId: nat): Files
    requires charId < |job.charset|
  {
    var id := FontId(fontName);
    var src := FontPath(job, fontName);
    var glyph := GlyphSelector(job.charset[charId], job.th);
    var txt := OutPath(job, fontName, charId, ".txt");
    var emptied := files[txt := TextFile("")];
    if ff.copies(src, glyph)
    then emptied[OutPath(job, fontName, charId, ".sfd") := GlyphFont(id + "_" + fontName, src, glyph)]
               [txt := TextFile(Description(ff.width(src, glyph), ff.vwidth(src, glyph), Pad(charId, job.width), id))]
    else emptied
  }

  /** The files after the first `n` characters of one opened font. */
  function CharsUpTo(files: Files, ff: FontForge, job: Job, fontName: string, n: nat): Files
    requires n <= |job.charset|
  {
    if n == 0 then files else CharStep(CharsUpTo(files, ff, job, fontName, n - 1), ff, job, fontName, n - 1)
  }

  /** One font: skipped when FontForge cannot open it, else every character. */
  function FontStep(files: Files, ff: FontForge, job: Job, fontName: string): Files {
    if !ff.opens(FontPath(job, fontName)) then files
    else CharsUpTo(files, ff, job, fontName, |job.charset|)
  }

  /** The fonts at the indices `idx` of `names`, converted in that order. */
  function FontsOver(files: Files, ff: FontForge, job: Job, names: seq<string>, idx: seq<nat>): Files
    requires forall k :: 0 <= k < |idx| ==> idx[k] < |names|
  {
    if idx == [] then files
    else FontStep(FontsOver(files, ff, job, names, idx[..|idx| - 1]), ff, job, names[idx[|idx| - 1]])
  }

  /** The expected content of the description file of a character. */
  function ExpectedText(ff: FontForge, job: Job, fontName: string, charId: nat): OutFile
    requires charId < |job.charset|
  {
    var src := FontPath(job, fontName);
    var glyph := GlyphSelector(job.charset[charId], job.th);
    if ff.copies(src, glyph)
    then TextFile(Description(ff.width(src, glyph), ff.vwidth(src, glyph), Pad(charId, job.width), FontId(fontName)))
    else TextFile("")
  }

  /** `m1` has at `key` exactly what `m0` has there (both lack it, or both
      hold the same file). */
  predicate Kept<K, V(==)>(m0: map<K, V>, m1: map<K, V>, key: K) {
    (key in m1 <==> key in m0) && (key in m0 ==> m1[key] == m0[key])
  }

  /** The two files of one character after its pass, relative to `files`
      before it: the description `t` is there, and the font file is `font`
      when the glyph was copied and otherwise left as it was. */
  predicate Written<K, V(==)>(res: map<K, V>, files: map<K, V>, txt: K, sfd: K, t: V, copied: bool, font: V) {
    && txt in res && res[txt] == t
    && (copied ==> sfd in res && res[sfd] == font)
    && (!copied ==> Kept(files, res, sfd))
  }

  lemma WrittenKept<K, V>(prev: map<K, V>, res: map<K, V>, files: map<K, V>, txt: K, sfd: K, t: V, copied: bool, font: V)
    requires Written(prev, files, txt, sfd, t, copied, font)
    requires Kept(prev, res, txt) && Kept(prev, res, sfd)
    ensures Written(res, files, txt, sfd, t, copied, font)
  {
  }

  lemma WrittenRebase<K, V>(res: map<K, V>, prev: map<K, V>, files: map<K, V>, txt: K, sfd: K, t: V, copied: bool, font: V)
    requires Written(res, prev, txt, sfd, t, copied, font)
    requires Kept(files, prev, sfd)
    ensures Written(res, files, txt, sfd, t, copied, font)
  {
  }

  /** What the pass of character `k` leaves at its two paths: the expected
      description file (complete, or empty when its glyph failed), and its
      SFD font written when the glyph was copied and otherwise left as it
      was. */
  ghost predicate CharWritten(res: Files, files: Files, ff: FontForge, job: Job, fontName: string, k: nat)
    requires k < |job.charset|
  {
    var src := FontPath(job, fontName);
    var glyph := GlyphSelector(job.charset[k], job.th);
    Written(res, files, OutPath(job, fontName, k, ".txt"), OutPath(job, fontName, k, ".sfd"),
            ExpectedText(ff, job, fontName, k), ff.copies(src, glyph),
            GlyphFont(FontId(fontName) + "_" + fontName, src, glyph))
  }

  /** One pass of the character loop writes only the two files of its
      character. */
  lemma CharStepFrame(files: Files, ff: FontForge, job: Job, fontName: string, charId: nat, path: string)
    requires charId < |job.charset|
    requires path != OutPath(job, fontName, charId, ".txt") && path != OutPath(job, fontName, charId, ".sfd")
    ensures Kept(files, CharStep(files, ff, job, fontName, charId), path)
  {
  }

  /** What one pass of the character loop leaves at the paths of its
      character. */
  lemma CharStepAt(files: Files, ff: FontForge, job: Job, fontName: string, k: nat)
    requires '/' !in fontName && job.width == CharIdWidth(job.charset)
    requires k < |job.charset|
    ensures CharWritten(CharStep(files, ff, job, fontName, k), files, ff, job, fontName, k)
  {
    OutPathsDistinct(job, fontName, k, k, ".txt", ".sfd");
  }

  /** After the first `n` characters of a font, each of them has its
      description file and its SFD font as its own pass left them: a failed
      character neither stops the loop nor touches its SFD path, and no
      later pass overwrites them. */
  lemma {:induction false} CharsUpToAt(files: Files, ff: FontForge, job: Job, fontName: string, n: nat, k: nat)
    requires '/' !in fontName && job.width == CharIdWidth(job.charset)
    requires k < n <= |job.charset|
    ensures CharWritten(CharsUpTo(files, ff, job, fontName, n), files, ff, job, fontName, k)
  {
    if k < n - 1 {
      CharsUpToAt(files, ff, job, fontName, n - 1, k);
      LaterPassKeepsWritten(files, ff, job, fontName, n, k);
    } else {
      OwnPassWritten(files, ff, job, fontName, k);
    }
  }

  /** The pass of character `k` leaves its two files as `CharWritten` says,
      relative to the files before the whole font loop. */
  lemma OwnPassWritten(files: Files, ff: FontForge, job: Job, fontName: string, k: nat)
    requires '/' !in fontName && job.width == CharIdWidth(job.charset)
    requires k < |job.charset|
    ensures CharWritten(CharsUpTo(files, ff, job, fontName, k + 1), files, ff, job, fontName, k)
  {
    var prev := CharsUpTo(files, ff, job, fontName, k);
    var txt := OutPath(job, fontName, k, ".txt");
    var sfd := OutPath(job, fontName, k, ".sfd");
    forall j | 0 <= j < k
      ensures sfd != OutPath(job, fontName, j, ".txt") && sfd != OutPath(job, fontName, j, ".sfd")
    {
      OutPathsDistinct(job, fontName, k, j, ".sfd", ".txt");
      OutPathsDistinct(job, fontName, k, j, ".sfd", ".sfd");
    }
    CharsUpToFrame(files, ff, job, fontName, k, sfd);
    CharStepAt(prev, ff, job, fontName, k);
    var src := FontPath(job, fontName);
    var glyph := GlyphSelector(job.charset[k], job.th);
    WrittenRebase(CharStep(prev, ff, job, fontName, k), prev, files, txt, sfd,
                  ExpectedText(ff, job, fontName, k), ff.copies(src, glyph),
                  GlyphFont(FontId(fontName) + "_" + fontName, src, glyph));
  }

  /** The pass of a later character `n - 1` keeps what `CharWritten` says
      about character `k`. */
  lemma LaterPassKeepsWritten(files: Files, ff: FontForge, job: Job, fontName: string, n: nat, k: nat)
    requires '/' !in fontName && job.width == CharIdWidth(job.charset)
    requires k < n - 1 && n <= |job.charset|
    requires CharWritten(CharsUpTo(files, ff, job, fontName, n - 1), files, ff, job, fontName, k)
    ensures CharWritten(CharsUpTo(files, ff, job, fontName, n), files, ff, job, fontName, k)
  {
    var prev := CharsUpTo(files, ff, job, fontName, n - 1);
    LaterPassKeeps(prev, ff, job, fontName, n - 1, k);
    var src := FontPath(job, fontName);
    var glyph := GlyphSelector(job.charset[k], job.th);
    WrittenKept(prev, CharStep(prev, ff, job, fontName, n - 1), files,
                OutPath(job, fontName, k, ".txt"), OutPath(job, fontName, k, ".sfd"),
                ExpectedText(ff, job, fontName, k), ff.copies(src, glyph),
                GlyphFont(FontId(fontName) + "_" + fontName, src, glyph));
  }

  /** The pass of a later character `j` keeps both files of character `k`. */
  lemma LaterPassKeeps(prev: Files, ff: FontForge, job: Job, fontName: string, j: nat, k: nat)
    requires '/' !in fontName && job.width == CharIdWidth(job.charset)
    requires k < j < |job.charset|
    ensures Kept(prev, CharStep(prev, ff, job, fontName, j), OutPath(job, fontName, k, ".txt"))
    ensures Kept(prev, CharStep(prev, ff, job, fontName, j), OutPath(job, fontName, k, ".sfd"))
  {
    OutPathsDistinct(job, fontName, j, k, ".txt", ".txt");
    OutPathsDistinct(job, fontName, j, k, ".sfd", ".txt");
    CharStepFrame(prev, ff, job, fontName, j, OutPath(job, fontName, k, ".txt"));
    OutPathsDistinct(job, fontName, j, k, ".txt", ".sfd");
    OutPathsDistinct(job, fontName, j, k, ".sfd", ".sfd");
    CharStepFrame(prev, ff, job, fontName, j, OutPath(job, fontName, k, ".sfd"));
  }

  /** A path that is not among the first `n` characters' outputs is left
      alone. */
  lemma {:induction false} CharsUpToFrame(files: Files, ff: FontForge, job: Job, fontName: string, n: nat, path: string)
    requires n <= |job.charset|
    requires forall k :: 0 <= k < n ==> path != OutPath(job, fontName, k, ".txt") && path != OutPath(job, fontName, k, ".sfd")
    ensures Kept(files, CharsUpTo(files, ff, job, fontName, n), path)
  {
    if n > 0 {
      var prev := CharsUpTo(files, ff, job, fontName, n - 1);
      CharsUpToFrame(files, ff, job, fontName, n - 1, path);
      CharStepFrame(prev, ff, job, fontName, n - 1, path);
      KeptTrans(files, prev, CharStep(prev, ff, job, fontName, n - 1), path);
    }
  }

  lemma KeptTrans<K, V>(m0: map<K, V>, m1: map<K, V>, m2: map<K, V>, key: K)
    requires Kept(m0, m1, key) && Kept(m1, m2, key)
    ensures Kept(m0, m2, key)
  {
  }

  lemma {:induction false} FontsOverAppend(files: Files, ff: FontForge, job: Job, names: seq<string>, a: seq<nat>, b: seq<nat>)
    requires forall k :: 0 <= k < |a| ==> a[k] < |names|
    requires forall k :: 0 <= k < |b| ==> b[k] < |names|
    ensures FontsOver(files, ff, job, names, a + b) == FontsOver(FontsOver(files, ff, job, names, a), ff, job, names, b)
    decreases |b|
  {
    if b == [] {
      assert a + b == a;
    } else {
      var b' := b[..|b| - 1];
      assert (a + b)[..|a + b| - 1] == a + b';
      assert (a + b)[|a + b| - 1] == b[|b| - 1];
      FontsOverAppend(files, ff, job, names, a, b');
    }
  }

  // ---------------------------------------------------------------------
  // Sharing the fonts out among the processes

  /** `font_num_per_process`; a process count of zero is the division by zero
      the caller has to rule out. */
  function FontsPerProcess(fontNum: nat, processNum: nat): (per: nat)
    requires processNum >= 1
    ensures per >= 1 && processNum * per > fontNum
  {
    var q := fontNum / processNum;
    assert processNum * (q + 1) == processNum * q + processNum;
    q + 1
  }

  function Min(a: nat, b: nat): nat {
    if a <= b then a else b
  }

  /** The indices process `p` converts: its range of `per` indices, cut off
      by the `break` at `font_num`. */
  function Share(p: nat, per: nat, fontNum: nat): seq<nat> {
    Span(p * per, Min((p + 1) * per, fontNum))
  }

  /** The shares of processes `0 .. k-1`, one after the other. */
  function Shares(k: nat, per: nat, fontNum: nat): seq<nat> {
    if k == 0 then [] else Shares(k - 1, per, fontNum) + Share(k - 1, per, fontNum)
  }

  lemma SpanMembers(lo: nat, hi: nat, i: nat)
    ensures i in Span(lo, hi) <==> lo <= i < hi
  {
    if lo <= i < hi {
      assert Span(lo, hi)[i - lo] == i;
    }
  }

  lemma {:induction false} SpanSplit(lo: nat, mid: nat, hi: nat)
    requires lo <= mid <= hi
    ensures Span(lo, hi) == Span(lo, mid) + Span(mid, hi)
    decreases hi
  {
    if hi > mid {
      SpanSplit(lo, mid, hi - 1);
    }
  }

  /** Index `i` belongs to process `p` exactly when it lies in `p`'s range
      and below the font count. */
  lemma ShareMembers(p: nat, per: nat, fontNum: nat, i: nat)
    ensures i in Share(p, per, fontNum) <==> p * per <= i < (p + 1) * per && i < fontNum
  {
    SpanMembers(p * per, Min((p + 1) * per, fontNum), i);
  }

  /** A process only converts fonts of the list. */
  lemma ShareBelow(p: nat, per: nat, fontNum: nat)
    ensures forall k :: 0 <= k < |Share(p, per, fontNum)| ==> Share(p, per, fontNum)[k] < fontNum
  {
  }

  /** A process never holds more than `per` indices. */
  lemma ShareSize(p: nat, per: nat, fontNum: nat)
    ensures |Share(p, per, fontNum)| <= per
  {
    assert (p + 1) * per == p * per + per;
  }

  /** Every index has one owner, `i / per`: no index belongs to two
      processes. */
  lemma SharesDisjoint(p: nat, q: nat, per: nat, fontNum: nat, i: nat)
    requires per >= 1 && p != q
    ensures !(i in Share(p, per, fontNum) && i in Share(q, per, fontNum))
  {
    ShareMembers(p, per, fontNum, i);
    ShareMembers(q, per, fontNum, i);
    if i in Share(p, per, fontNum) {
      assert (p + 1) * per == p * per + per;
      DivModUnique(p, i - p * per, per);
    }
    if i in Share(q, per, fontNum) {
      assert (q + 1) * per == q * per + per;
      DivModUnique(q, i - q * per, per);
    }
  }

  /** The first `k` processes together convert the indices below
      `min(k * per, font_num)`, in increasing order. */
  lemma {:induction false} SharesPrefix(k: nat, per: nat, fontNum: nat)
    ensures Shares(k, per, fontNum) == Span(0, Min(k * per, fontNum))
  {
    if k > 0 {
      SharesPrefix(k - 1, per, fontNum);
      var lo := (k - 1) * per;
      assert k * per == lo + per;
      if lo < fontNum {
        SpanSplit(0, lo, Min(k * per, fontNum));
      } else {
        assert Share(k - 1, per, fontNum) == [];
      }
    }
  }

  /** All `process_num` processes together convert every font exactly once,
      in index order. */
  lemma SharesCover(processNum: nat, fontNum: nat)
    requires processNum >= 1
    ensures Shares(processNum, FontsPerProcess(fontNum, processNum), fontNum) == Span(0, fontNum)
  {
    SharesPrefix(processNum, FontsPerProcess(fontNum, processNum), fontNum);
  }

  /** Nine fonts on four processes: three each for the first three, none for
      the last. */
  lemma PartitionExample()
    ensures FontsPerProcess(9, 4) == 3
    ensures Share(0, 3, 9) == [0, 1, 2] && Share(2, 3, 9) == [6, 7, 8] && Share(3, 3, 9) == []
  {
  }

  // ---------------------------------------------------------------------
  // The converter

  /** The file system the converter writes into. */
  class Disk {
    var files: Files

    constructor (initial: Files)
      ensures files == initial
    {
      files := initial;
    }
  }

  /** The body of `process` for one font file. */
  method ConvertFont(disk: Disk, ff: FontForge, job: Job, fontName: string)
    modifies disk
    ensures disk.files == FontStep(old(disk.files), ff, job, fontName)
  {
    var id := FontId(fontName);
    var src := FontPath(job, fontName);
    if !ff.opens(src) {
      return;
    }
    var charId := 0;
    while charId < |job.charset|
      invariant charId <= |job.charset|
      invariant disk.files == CharsUpTo(old(disk.files), ff, job, fontName, charId)
    {
      var txt := OutPath(job, fontName, charId, ".txt");
      disk.files := disk.files[txt := TextFile("")];
      var glyph := GlyphSelector(job.charset[charId], job.th);
      if ff.copies(src, glyph) {
        disk.files := disk.files[OutPath(job, fontName, charId, ".sfd") := GlyphFont(id + "_" + fontName, src, glyph)];
        var record := Description(ff.width(src, glyph), ff.vwidth(src, glyph), Pad(charId, job.width), id);
        disk.files := disk.files[txt := TextFile(record)];
      }
      charId := charId + 1;
    }
  }

  /** `process(p, per)`: the indices `p * per ..` up to the next process's
      first index, stopping at the first index past the font list. Returns
      the indices it converted. */
  method Process(disk: Disk, ff: FontForge, job: Job, names: seq<string>, p: nat, per: nat)
    returns (visited: seq<nat>)
    modifies disk
    ensures visited == Share(p, per, |names|)
    ensures disk.files == FontsOver(old(disk.files), ff, job, names, visited)
  {
    visited := [];
    var lo, hi := p * per, (p + 1) * per;
    assert hi == lo + per;
    var i := lo;
    while i < hi
      invariant lo <= i <= hi
      invariant i > lo ==> i <= |names|
      invariant visited == Span(lo, i)
      invariant disk.files == FontsOver(old(disk.files), ff, job, names, visited)
    {
      if i >= |names| {
        break;
      }
      ConvertFont(disk, ff, job, names[i]);
      assert (visited + [i])[..|visited|] == visited;
      visited := visited + [i];
      i := i + 1;
    }
  }

  datatype ConvertError =
    | FontListUndefined   // the split's directory was never walked, so the font list is unbound
    | NoWorkers           // `cpu_count() - 1 == 0` divides the font count by zero

  /** `convert_mp`: the font list is the last listing of the directory walk,
      the charset and its id width are fixed, and the processes run one after
      the other. Returns the order in which the fonts were converted. */
  method ConvertMp(disk: Disk, ff: FontForge, opts: Options, th: string, eng: string,
                   walk: seq<seq<string>>, cpuCount: nat)
    returns (r: Result<seq<nat>, ConvertError>)
    requires cpuCount >= 1
    modifies disk
    ensures walk == [] ==> r == Failure(FontListUndefined) && disk.files == old(disk.files)
    ensures walk != [] && cpuCount == 1 ==> r == Failure(NoWorkers) && disk.files == old(disk.files)
    ensures walk != [] && cpuCount > 1 ==>
      var names := walk[|walk| - 1];
      && r == Success(Span(0, |names|))
      && disk.files == FontsOver(old(disk.files), ff, MakeJob(opts, th, eng), names, Span(0, |names|))
  {
    if walk == [] {
      return Failure(FontListUndefined);
    }
    var names := walk[|walk| - 1];
    var job := MakeJob(opts, th, eng);
    var processNum := cpuCount - 1;
    if processNum == 0 {
      return Failure(NoWorkers);
    }
    var visited := RunProcesses(disk, ff, job, names, processNum);
    r := Success(visited);
  }

  /** The processes `0 .. process_num - 1`, each with its share of
      `font_num // process_num + 1` fonts, run one after the other. */
  method RunProcesses(disk: Disk, ff: FontForge, job: Job, names: seq<string>, processNum: nat)
    returns (visited: seq<nat>)
    requires processNum >= 1
    modifies disk
    ensures visited == Span(0, |names|)
    ensures disk.files == FontsOver(old(disk.files), ff, job, names, visited)
  {
    var per := FontsPerProcess(|names|, processNum);
    visited := [];
    var p := 0;
    while p < processNum
      invariant p <= processNum
      invariant visited == Shares(p, per, |names|)
      invariant forall k :: 0 <= k < |visited| ==> visited[k] < |names|
      invariant disk.files == FontsOver(old(disk.files), ff, job, names, visited)
    {
      var share := Process(disk, ff, job, names, p, per);
      ShareBelow(p, per, |names|);
      FontsOverAppend(old(disk.files), ff, job, names, visited, share);
      visited := visited + share;
      p := p + 1;
    }
    SharesCover(processNum, |names|);
  }
}
