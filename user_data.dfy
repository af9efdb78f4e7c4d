/**
 * The cloud-init user-data composer `getUserData` of src/resources/instance.jsx:
 * one of three fixed multipart/mixed MIME documents (section 5.1.1 of RFC 2046),
 * with the sentinel words USER_PASSWORD and USER_DATA replaced by the root
 * password and the user's script.
 */
module UserData {
  import opened Js

  const Boundary: string := "===============2309984059743762475=="
  const PasswordSentinel: string := "USER_PASSWORD"
  const DataSentinel: string := "USER_DATA"

  /** A template is written as the concatenation of its lines. */
  function Join(lines: seq<string>): string {
    if lines == [] then "" else lines[0] + Join(lines[1..])
  }

  /** The lines of the template used when both a password and a script are given. */
  const PasswordAndUserDataLines: seq<string> := [
    "Content-Type: multipart/mixed; boundary=\"" + "===============2309984059743762475==" + "\"\n",
    "MIME-Version: 1.0\n",
    "\n",
    "--" + "===============2309984059743762475==" + "\n",
    "Content-Type: text/cloud-config; charset=\"us-ascii\" \n",
    "MIME-Version: 1.0\n",
    "Content-Transfer-Encoding: 7bit\n",
    "Content-Disposition: attachment; filename=\"ssh-pwauth-script.txt\" \n",
    "\n",
    "#cloud-config\n",
    "disable_root: false\n",
    "ssh_pwauth: true\n",
    "password: USER_PASSWORD\n",
    "\n",
    "--" + "===============2309984059743762475==" + "\n",
    "Content-Type: text/x-shellscript; charset=\"us-ascii\" \n",
    "MIME-Version: 1.0\n",
    "Content-Transfer-Encoding: 7bit\n",
    "Content-Disposition: attachment; filename=\"passwd-script.txt\" \n",
    "\n",
    "#!/bin/sh\n",
    "echo 'root:USER_PASSWORD' | chpasswd\n",
    "\n",
    "--" + "===============2309984059743762475==" + "\n",
    "Content-Type: text/x-shellscript; charset=\"us-ascii\" \n",
    "MIME-Version: 1.0\n",
    "Content-Transfer-Encoding: 7bit\n",
    "Content-Disposition: attachment; filename=\"init-shell.txt\" \n",
    "\n",
    "USER_DATA\n",
    "\n",
    "--" + "===============2309984059743762475==" + "--"
  ]

  /** The lines of the template used when only a password is given. */
  const OnlyPasswordLines: seq<string> := [
    "Content-Type: multipart/mixed; boundary=\"" + "===============2309984059743762475==" + "\" \n",
    "MIME-Version: 1.0\n",
    "\n",
    "--" + "===============2309984059743762475==" + "\n",
    "Content-Type: text/cloud-config; charset=\"us-ascii\" \n",
    "MIME-Version: 1.0\n",
    "Content-Transfer-Encoding: 7bit\n",
    "Content-Disposition: attachment; filename=\"ssh-pwauth-script.txt\" \n",
    "\n",
    "#cloud-config\n",
    "disable_root: false\n",
    "ssh_pwauth: true\n",
    "password: USER_PASSWORD\n",
    "\n",
    "--" + "===============2309984059743762475==" + "\n",
    "Content-Type: text/x-shellscript; charset=\"us-ascii\" \n",
    "MIME-Version: 1.0\n",
    "Content-Transfer-Encoding: 7bit\n",
    "Content-Disposition: attachment; filename=\"passwd-script.txt\" \n",
    "\n",
    "#!/bin/sh\n",
    "echo 'root:USER_PASSWORD' | chpasswd\n",
    "\n",
    "--" + "===============2309984059743762475==" + "--"
  ]

  /** The lines of the template used when no password is given. */
  const OnlyUserDataLines: seq<string> := [
    "Content-Type: multipart/mixed; boundary=\"" + "===============2309984059743762475==" + "\" \n",
    "MIME-Version: 1.0\n",
    "\n",
    "--" + "===============2309984059743762475==" + "\n",
    "Content-Type: text/x-shellscript; charset=\"us-ascii\" \n",
    "MIME-Version: 1.0\n",
    "Content-Transfer-Encoding: 7bit\n",
    "Content-Disposition: attachment; filename=\"init-shell.txt\" \n",
    "\n",
    "USER_DATA\n",
    "\n",
    "--" + "===============2309984059743762475==" + "--"
  ]

  const PasswordAndUserData: string := Join(PasswordAndUserDataLines)
  const OnlyPassword: string := Join(OnlyPasswordLines)
  const OnlyUserData: string := Join(OnlyUserDataLines)

  // ---------------------------------------------------------------------
  // The structure the three templates share: a multipart document is a
  // header, one encapsulated part after each delimiter line `--boundary`,
  // and the closing delimiter `--boundary--`.

  /** One body part: its media type, its attachment file name and its content lines. */
  datatype Part = Part(contentType: string, filename: string, body: seq<string>)

  const FramingHeader: string := "Content-Type: multipart/mixed; boundary=\"" + Boundary + "\""
  const DelimiterLine: string := "--" + Boundary + "\n"
  const ClosingDelimiter: string := "--" + Boundary + "--"
  /** The blank line after the last part, then the closing delimiter. */
  const FramingTrailer: string := "\n\n" + ClosingDelimiter

  /** The first line; only the two-hole template has no space before its line break. */
  function HeaderLine(trailingSpace: bool): string {
    FramingHeader + (if trailingSpace then " \n" else "\n")
  }

  function PreambleLines(trailingSpace: bool): seq<string> {
    [HeaderLine(trailingSpace), "MIME-Version: 1.0\n", "\n"]
  }

  /** The delimiter line and the header lines of a part, up to its blank line. */
  function PartHeadLines(p: Part): seq<string> {
    [DelimiterLine,
     ContentTypeLine(p.contentType),
     "MIME-Version: 1.0\n",
     "Content-Transfer-Encoding: 7bit\n",
     DispositionLine(p.filename),
     "\n"]
  }

  function ContentTypeLine(contentType: string): string {
    "Content-Type: " + contentType + "; charset=\"us-ascii\" \n"
  }

  function DispositionLine(filename: string): string {
    "Content-Disposition: attachment; filename=\"" + filename + "\" \n"
  }

  /** A part: its head, its content, and a blank line before the next delimiter. */
  function PartLines(p: Part): seq<string> {
    PartHeadLines(p) + p.body + ["\n"]
  }

  function PartsLines(ps: seq<Part>): seq<string> {
    if ps == [] then [] else PartLines(ps[0]) + PartsLines(ps[1..])
  }

  function DocumentLines(trailingSpace: bool, ps: seq<Part>): seq<string> {
    PreambleLines(trailingSpace) + PartsLines(ps) + [ClosingDelimiter]
  }

  function Document(trailingSpace: bool, ps: seq<Part>): string {
    Join(DocumentLines(trailingSpace, ps))
  }

  /** The cloud-config part that enables password login and sets the root password. */
  function CloudConfigPart(password: string): Part {
    Part("text/cloud-config", "ssh-pwauth-script.txt",
         ["#cloud-config\n", "disable_root: false\n", "ssh_pwauth: true\n", "password: " + password + "\n"])
  }

  /** The shell-script part that sets the root password with chpasswd. */
  function PasswdScriptPart(password: string): Part {
    Part("text/x-shellscript", "passwd-script.txt",
         ["#!/bin/sh\n", "echo 'root:" + password + "' | chpasswd\n"])
  }

  /** The shell-script part that carries the user's own script. */
  function UserScriptPart(script: string): Part {
    Part("text/x-shellscript", "init-shell.txt", [script + "\n"])
  }

  // ---------------------------------------------------------------------
  // The templates are documents of this shape, with sentinels in the holes.

  lemma PartsLinesOfOne(a: Part)
    ensures PartsLines([a]) == PartLines(a)
  {
    assert [a][1..] == [];
    assert PartLines(a) + [] == PartLines(a);
  }

  lemma PartsLinesOfTwo(a: Part, b: Part)
    ensures PartsLines([a, b]) == PartLines(a) + PartLines(b)
  {
    assert [a, b][1..] == [b];
    PartsLinesOfOne(b);
  }

  lemma PartsLinesOfThree(a: Part, b: Part, c: Part)
    ensures PartsLines([a, b, c]) == PartLines(a) + PartLines(b) + PartLines(c)
  {
    assert [a, b, c][1..] == [b, c];
    PartsLinesOfTwo(b, c);
  }

  // The lines of the parts' heads and holes, as the templates spell them.

  lemma HeaderSpellingNoSpace()
    ensures HeaderLine(false) == "Content-Type: multipart/mixed; boundary=\"" + "===============2309984059743762475==" + "\"\n"
  {
    assert "\"" + "\n" == "\"\n";
  }

  lemma HeaderSpellingSpace()
    ensures HeaderLine(true) == "Content-Type: multipart/mixed; boundary=\"" + "===============2309984059743762475==" + "\" \n"
  {
    assert "\"" + " \n" == "\" \n";
  }

  lemma DelimiterSpelling()
    ensures DelimiterLine == "--" + "===============2309984059743762475==" + "\n"
  {
  }

  lemma ClosingSpelling()
    ensures ClosingDelimiter == "--" + "===============2309984059743762475==" + "--"
  {
  }

  lemma CloudConfigTypeSpelling()
    ensures ContentTypeLine("text/cloud-config") == "Content-Type: text/cloud-config; charset=\"us-ascii\" \n"
  {
  }

  lemma ShellScriptTypeSpelling()
    ensures ContentTypeLine("text/x-shellscript") == "Content-Type: text/x-shellscript; charset=\"us-ascii\" \n"
  {
  }

  lemma PwauthFileSpelling()
    ensures DispositionLine("ssh-pwauth-script.txt") == "Content-Disposition: attachment; filename=\"ssh-pwauth-script.txt\" \n"
  {
  }

  lemma PasswdFileSpelling()
    ensures DispositionLine("passwd-script.txt") == "Content-Disposition: attachment; filename=\"passwd-script.txt\" \n"
  {
  }

  lemma InitShellFileSpelling()
    ensures DispositionLine("init-shell.txt") == "Content-Disposition: attachment; filename=\"init-shell.txt\" \n"
  {
  }

  lemma PasswordHoleSpelling()
    ensures "password: " + PasswordSentinel + "\n" == "password: USER_PASSWORD\n"
  {
  }

  lemma ChpasswdHoleSpelling()
    ensures "echo 'root:" + PasswordSentinel + "' | chpasswd\n" == "echo 'root:USER_PASSWORD' | chpasswd\n"
  {
  }

  lemma DataHoleSpelling()
    ensures DataSentinel + "\n" == "USER_DATA\n"
  {
  }

  lemma PasswordAndUserDataShape()
    ensures PasswordAndUserDataLines ==
      DocumentLines(false, [CloudConfigPart(PasswordSentinel), PasswdScriptPart(PasswordSentinel), UserScriptPart(DataSentinel)])
  {
    PartsLinesOfThree(CloudConfigPart(PasswordSentinel), PasswdScriptPart(PasswordSentinel), UserScriptPart(DataSentinel));
    HeaderSpellingNoSpace();
    DelimiterSpelling();
    ClosingSpelling();
    CloudConfigTypeSpelling();
    ShellScriptTypeSpelling();
    PwauthFileSpelling();
    PasswdFileSpelling();
    InitShellFileSpelling();
    PasswordHoleSpelling();
    ChpasswdHoleSpelling();
    DataHoleSpelling();
  }

  lemma OnlyPasswordShape()
    ensures OnlyPasswordLines ==
      DocumentLines(true, [CloudConfigPart(PasswordSentinel), PasswdScriptPart(PasswordSentinel)])
  {
    PartsLinesOfTwo(CloudConfigPart(PasswordSentinel), PasswdScriptPart(PasswordSentinel));
    HeaderSpellingSpace();
    DelimiterSpelling();
    ClosingSpelling();
    CloudConfigTypeSpelling();
    ShellScriptTypeSpelling();
    PwauthFileSpelling();
    PasswdFileSpelling();
    PasswordHoleSpelling();
    ChpasswdHoleSpelling();
  }

  lemma OnlyUserDataShape()
    ensures OnlyUserDataLines == DocumentLines(true, [UserScriptPart(DataSentinel)])
  {
    PartsLinesOfOne(UserScriptPart(DataSentinel));
    HeaderSpellingSpace();
    DelimiterSpelling();
    ClosingSpelling();
    ShellScriptTypeSpelling();
    InitShellFileSpelling();
    DataHoleSpelling();
  }

  // ---------------------------------------------------------------------
  // Substituting a sentinel in a document rewrites the part bodies only.

  /** Both sentinels are words of capital letters and underscores that begin with U. */
  predicate IsSentinel(pat: string) {
    pat != [] && pat[0] == 'U' &&
    forall i :: 0 <= i < |pat| ==> IsUpper(pat[i]) || pat[i] == '_'
  }

  lemma SentinelsAreWords()
    ensures IsSentinel(PasswordSentinel) && IsSentinel(DataSentinel)
  {
  }

  predicate EndsLine(line: string) {
    line != [] && line[|line| - 1] == '\n'
  }

  /** Every line but the last ends with a line break. */
  predicate LinesEnded(lines: seq<string>) {
    forall i :: 0 <= i < |lines| - 1 ==> EndsLine(lines[i])
  }

  /** Every content line of every part ends with a line break. */
  predicate BodiesEnded(ps: seq<Part>) {
    forall i, j :: 0 <= i < |ps| && 0 <= j < |ps[i].body| ==> EndsLine(ps[i].body[j])
  }

  /** The same replacement applied to each line on its own. */
  function ReplaceEach(lines: seq<string>, pat: string, rep: string): (r: seq<string>)
    requires pat != []
  {
    seq(|lines|, i requires 0 <= i < |lines| => ReplaceAll(lines[i], pat, rep))
  }

  /** The parts with the replacement applied inside their bodies. */
  function ReplaceInBodies(ps: seq<Part>, pat: string, rep: string): (r: seq<Part>)
    requires pat != []
  {
    seq(|ps|, i requires 0 <= i < |ps| => ps[i].(body := ReplaceEach(ps[i].body, pat, rep)))
  }

  lemma {:induction false} JoinAppend(a: seq<string>, b: seq<string>)
    ensures Join(a + b) == Join(a) + Join(b)
  {
    if a == [] {
      assert a + b == b;
    } else {
      assert (a + b)[1..] == a[1..] + b;
      JoinAppend(a[1..], b);
    }
  }

  /** When no line break is in the pattern, replacing in joined lines is replacing in each line. */
  lemma {:induction false} ReplaceAllJoin(lines: seq<string>, pat: string, rep: string)
    requires pat != [] && '\n' !in pat
    requires LinesEnded(lines)
    ensures ReplaceAll(Join(lines), pat, rep) == Join(ReplaceEach(lines, pat, rep))
  {
    if lines != [] {
      ReplaceAllJoin(lines[1..], pat, rep);
      if |lines| > 1 {
        assert EndsLine(lines[0]);
      }
      ReplaceAllConcat(lines[0], Join(lines[1..]), pat, rep);
      assert ReplaceEach(lines, pat, rep)[1..] == ReplaceEach(lines[1..], pat, rep);
    }
  }

  lemma ReplaceEachAppend(a: seq<string>, b: seq<string>, pat: string, rep: string)
    requires pat != []
    ensures ReplaceEach(a + b, pat, rep) == ReplaceEach(a, pat, rep) + ReplaceEach(b, pat, rep)
  {
  }

  /** A line with a hole: the fixed text around the hole is kept, the hole is rewritten. */
  lemma ReplaceAllHole(a: string, x: string, b: string, pat: string, rep: string)
    requires pat != [] && pat[0] !in a && pat[0] !in b
    requires a == [] || a[|a| - 1] !in pat
    requires b != [] && b[0] !in pat
    ensures ReplaceAll(a + x + b, pat, rep) == a + ReplaceAll(x, pat, rep) + b
  {
    ReplaceAllConcat(a + x, b, pat, rep);
    ReplaceAllConcat(a, x, pat, rep);
  }

  lemma ReplaceEachPreamble(trailingSpace: bool, pat: string, rep: string)
    requires IsSentinel(pat)
    ensures ReplaceEach(PreambleLines(trailingSpace), pat, rep) == PreambleLines(trailingSpace)
  {
    assert 'U' !in "Content-Type: multipart/mixed; boundary=\"";
    assert 'U' !in Boundary;
    assert 'U' !in "\"" && 'U' !in " \n" && 'U' !in "\n";
    assert 'U' !in HeaderLine(trailingSpace);
    assert 'U' !in "MIME-Version: 1.0\n";
  }

  lemma DelimitersWithoutU()
    ensures 'U' !in DelimiterLine && 'U' !in ClosingDelimiter
  {
    assert 'U' !in "--" && 'U' !in Boundary && 'U' !in "\n";
  }

  lemma FixedHeadLinesWithoutU()
    ensures 'U' !in "MIME-Version: 1.0\n" && 'U' !in "Content-Transfer-Encoding: 7bit\n"
  {
  }

  lemma ContentTypeLineWithoutU(contentType: string)
    requires 'U' !in contentType
    ensures 'U' !in ContentTypeLine(contentType)
  {
    assert 'U' !in "Content-Type: " && 'U' !in "; charset=\"us-ascii\" \n";
  }

  lemma DispositionLineWithoutU(filename: string)
    requires 'U' !in filename
    ensures 'U' !in DispositionLine(filename)
  {
    assert 'U' !in "Content-Disposition: attachment; filename=\"" && 'U' !in "\" \n";
  }

  lemma ReplaceEachPartHead(p: Part, pat: string, rep: string)
    requires IsSentinel(pat)
    requires 'U' !in p.contentType && 'U' !in p.filename
    ensures ReplaceEach(PartHeadLines(p), pat, rep) == PartHeadLines(p)
  {
    DelimitersWithoutU();
    FixedHeadLinesWithoutU();
    ContentTypeLineWithoutU(p.contentType);
    DispositionLineWithoutU(p.filename);
    var head := PartHeadLines(p);
    forall i | 0 <= i < |head| ensures ReplaceAll(head[i], pat, rep) == head[i] {
    }
  }

  lemma ReplaceEachPart(p: Part, pat: string, rep: string)
    requires IsSentinel(pat)
    requires 'U' !in p.contentType && 'U' !in p.filename
    ensures ReplaceEach(PartLines(p), pat, rep) == PartLines(p.(body := ReplaceEach(p.body, pat, rep)))
  {
    ReplaceEachPartHead(p, pat, rep);
    ReplaceEachAppend(PartHeadLines(p) + p.body, ["\n"], pat, rep);
    ReplaceEachAppend(PartHeadLines(p), p.body, pat, rep);
  }

  lemma {:induction false} ReplaceEachParts(ps: seq<Part>, pat: string, rep: string)
    requires IsSentinel(pat)
    requires forall i :: 0 <= i < |ps| ==> 'U' !in ps[i].contentType && 'U' !in ps[i].filename
    ensures ReplaceEach(PartsLines(ps), pat, rep) == PartsLines(ReplaceInBodies(ps, pat, rep))
  {
    if ps != [] {
      ReplaceEachPart(ps[0], pat, rep);
      ReplaceEachParts(ps[1..], pat, rep);
      ReplaceEachAppend(PartLines(ps[0]), PartsLines(ps[1..]), pat, rep);
      assert ReplaceInBodies(ps, pat, rep)[1..] == ReplaceInBodies(ps[1..], pat, rep);
    }
  }

  lemma {:induction false} PartsLinesEnded(ps: seq<Part>)
    requires BodiesEnded(ps)
    ensures forall i :: 0 <= i < |PartsLines(ps)| ==> EndsLine(PartsLines(ps)[i])
  {
    if ps != [] {
      PartsLinesEnded(ps[1..]);
      var head := PartHeadLines(ps[0]);
      assert EndsLine(DelimiterLine) && EndsLine(ContentTypeLine(ps[0].contentType));
      assert EndsLine(DispositionLine(ps[0].filename));
      forall i | 0 <= i < |ps[0].body| ensures EndsLine(ps[0].body[i]) {
        assert EndsLine(ps[0].body[i]);
      }
    }
  }

  /**
   * Substituting a sentinel in a document leaves the header, every part's
   * header lines, the delimiters and the closing delimiter as they are, and
   * substitutes inside each part's content.
   */
  lemma ReplaceAllDocument(trailingSpace: bool, ps: seq<Part>, pat: string, rep: string)
    requires IsSentinel(pat) && BodiesEnded(ps)
    requires forall i :: 0 <= i < |ps| ==> 'U' !in ps[i].contentType && 'U' !in ps[i].filename
    ensures ReplaceAll(Document(trailingSpace, ps), pat, rep) == Document(trailingSpace, ReplaceInBodies(ps, pat, rep))
  {
    var lines := DocumentLines(trailingSpace, ps);
    PartsLinesEnded(ps);
    assert LinesEnded(lines) by {
      var pre := PreambleLines(trailingSpace);
      assert EndsLine(HeaderLine(trailingSpace));
      assert lines == pre + PartsLines(ps) + [ClosingDelimiter];
    }
    ReplaceAllJoin(lines, pat, rep);
    ReplaceEachPreamble(trailingSpace, pat, rep);
    ReplaceEachParts(ps, pat, rep);
    DelimitersWithoutU();
    ReplaceEachAppend(PreambleLines(trailingSpace) + PartsLines(ps), [ClosingDelimiter], pat, rep);
    ReplaceEachAppend(PreambleLines(trailingSpace), PartsLines(ps), pat, rep);
    assert ReplaceEach([ClosingDelimiter], pat, rep) == [ClosingDelimiter];
    assert ReplaceEach(lines, pat, rep) == DocumentLines(trailingSpace, ReplaceInBodies(ps, pat, rep));
  }

  // ---------------------------------------------------------------------
  // The three kinds of part, with a sentinel substituted in their holes.

  lemma PartKindsWithoutU()
    ensures 'U' !in "text/cloud-config" && 'U' !in "text/x-shellscript"
    ensures 'U' !in "ssh-pwauth-script.txt" && 'U' !in "passwd-script.txt" && 'U' !in "init-shell.txt"
  {
  }

  lemma ReplaceInCloudConfig(x: string, pat: string, rep: string)
    requires IsSentinel(pat)
    ensures CloudConfigPart(x).(body := ReplaceEach(CloudConfigPart(x).body, pat, rep))
         == CloudConfigPart(ReplaceAll(x, pat, rep))
  {
    var body := CloudConfigPart(x).body;
    assert 'U' !in body[0] && 'U' !in body[1] && 'U' !in body[2];
    assert 'U' !in "password: ";
    ReplaceAllHole("password: ", x, "\n", pat, rep);
  }

  lemma ReplaceInPasswdScript(x: string, pat: string, rep: string)
    requires IsSentinel(pat)
    ensures PasswdScriptPart(x).(body := ReplaceEach(PasswdScriptPart(x).body, pat, rep))
         == PasswdScriptPart(ReplaceAll(x, pat, rep))
  {
    assert 'U' !in "#!/bin/sh\n";
    assert 'U' !in "echo 'root:" && 'U' !in "' | chpasswd\n";
    ReplaceAllHole("echo 'root:", x, "' | chpasswd\n", pat, rep);
  }

  lemma ReplaceInUserScript(x: string, pat: string, rep: string)
    requires IsSentinel(pat)
    ensures UserScriptPart(x).(body := ReplaceEach(UserScriptPart(x).body, pat, rep))
         == UserScriptPart(ReplaceAll(x, pat, rep))
  {
    ReplaceAllConcat(x, "\n", pat, rep);
    assert ReplaceEach([x + "\n"], pat, rep) == [ReplaceAll(x + "\n", pat, rep)];
  }

  /** Parts of the three kinds have line-ended bodies and U-free headers. */
  lemma KindsSubstitutable(a: string, b: string, c: string)
    ensures var ps := [CloudConfigPart(a), PasswdScriptPart(b), UserScriptPart(c)];
      BodiesEnded(ps) && forall i :: 0 <= i < |ps| ==> 'U' !in ps[i].contentType && 'U' !in ps[i].filename
    ensures var ps := [CloudConfigPart(a), PasswdScriptPart(b)];
      BodiesEnded(ps) && forall i :: 0 <= i < |ps| ==> 'U' !in ps[i].contentType && 'U' !in ps[i].filename
    ensures var ps := [UserScriptPart(c)];
      BodiesEnded(ps) && forall i :: 0 <= i < |ps| ==> 'U' !in ps[i].contentType && 'U' !in ps[i].filename
  {
    PartKindsWithoutU();
  }

  lemma ReplaceInThree(a: string, b: string, c: string, pat: string, rep: string)
    requires IsSentinel(pat)
    ensures ReplaceInBodies([CloudConfigPart(a), PasswdScriptPart(b), UserScriptPart(c)], pat, rep)
         == [CloudConfigPart(ReplaceAll(a, pat, rep)), PasswdScriptPart(ReplaceAll(b, pat, rep)),
             UserScriptPart(ReplaceAll(c, pat, rep))]
  {
    ReplaceInCloudConfig(a, pat, rep);
    ReplaceInPasswdScript(b, pat, rep);
    ReplaceInUserScript(c, pat, rep);
  }

  lemma ReplaceInTwo(a: string, b: string, pat: string, rep: string)
    requires IsSentinel(pat)
    ensures ReplaceInBodies([CloudConfigPart(a), PasswdScriptPart(b)], pat, rep)
         == [CloudConfigPart(ReplaceAll(a, pat, rep)), PasswdScriptPart(ReplaceAll(b, pat, rep))]
  {
    ReplaceInCloudConfig(a, pat, rep);
    ReplaceInPasswdScript(b, pat, rep);
  }

  lemma ReplaceInOne(c: string, pat: string, rep: string)
    requires IsSentinel(pat)
    ensures ReplaceInBodies([UserScriptPart(c)], pat, rep) == [UserScriptPart(ReplaceAll(c, pat, rep))]
  {
    ReplaceInUserScript(c, pat, rep);
  }

  lemma TemplateBothIsDocument()
    ensures PasswordAndUserData
         == Document(false, [CloudConfigPart(PasswordSentinel), PasswdScriptPart(PasswordSentinel), UserScriptPart(DataSentinel)])
  {
    PasswordAndUserDataShape();
  }

  lemma TemplatePasswordIsDocument()
    ensures OnlyPassword == Document(true, [CloudConfigPart(PasswordSentinel), PasswdScriptPart(PasswordSentinel)])
  {
    OnlyPasswordShape();
  }

  lemma TemplateDataIsDocument()
    ensures OnlyUserData == Document(true, [UserScriptPart(DataSentinel)])
  {
    OnlyUserDataShape();
  }

  /** The sentinels do not occur in one another, and each is replaced in itself. */
  lemma SentinelsApart(password: string, script: string)
    ensures ReplaceAll(DataSentinel, PasswordSentinel, password) == DataSentinel
    ensures ReplaceAll(PasswordSentinel, PasswordSentinel, password) == password
    ensures ReplaceAll(DataSentinel, DataSentinel, script) == script
  {
    ReplaceAllOfPattern(PasswordSentinel, password);
    ReplaceAllOfPattern(DataSentinel, script);
  }

  /** `passwordAndUserData` with the password, then the script, substituted globally. */
  function FillBoth(password: string, script: string): (r: string)
    ensures var pw := ReplaceAll(password, DataSentinel, script);
      r == Document(false, [CloudConfigPart(pw), PasswdScriptPart(pw), UserScriptPart(script)])
  {
    SentinelsAreWords();
    SentinelsApart(password, script);
    TemplateBothIsDocument();
    KindsSubstitutable(PasswordSentinel, PasswordSentinel, DataSentinel);
    ReplaceAllDocument(false, [CloudConfigPart(PasswordSentinel), PasswdScriptPart(PasswordSentinel), UserScriptPart(DataSentinel)], PasswordSentinel, password);
    ReplaceInThree(PasswordSentinel, PasswordSentinel, DataSentinel, PasswordSentinel, password);
    KindsSubstitutable(password, password, DataSentinel);
    ReplaceAllDocument(false, [CloudConfigPart(password), PasswdScriptPart(password), UserScriptPart(DataSentinel)], DataSentinel, script);
    ReplaceInThree(password, password, DataSentinel, DataSentinel, script);
    ReplaceAll(ReplaceAll(PasswordAndUserData, PasswordSentinel, password), DataSentinel, script)
  }

  /** `onlyPasword` with the password substituted globally. */
  function FillPasswordOnly(password: string): (r: string)
    ensures r == Document(true, [CloudConfigPart(password), PasswdScriptPart(password)])
  {
    SentinelsAreWords();
    SentinelsApart(password, "");
    TemplatePasswordIsDocument();
    KindsSubstitutable(PasswordSentinel, PasswordSentinel, "");
    ReplaceAllDocument(true, [CloudConfigPart(PasswordSentinel), PasswdScriptPart(PasswordSentinel)], PasswordSentinel, password);
    ReplaceInTwo(PasswordSentinel, PasswordSentinel, PasswordSentinel, password);
    ReplaceAll(OnlyPassword, PasswordSentinel, password)
  }

  /** `onlyUserData` with the script substituted globally. */
  function FillUserDataOnly(script: string): (r: string)
    ensures r == Document(true, [UserScriptPart(script)])
  {
    SentinelsAreWords();
    SentinelsApart("", script);
    TemplateDataIsDocument();
    KindsSubstitutable("", "", DataSentinel);
    ReplaceAllDocument(true, [UserScriptPart(DataSentinel)], DataSentinel, script);
    ReplaceInOne(DataSentinel, DataSentinel, script);
    ReplaceAll(OnlyUserData, DataSentinel, script)
  }

  // ---------------------------------------------------------------------
  // Every document opens with the multipart header and ends with the closing delimiter.

  predicate EndsWith(s: string, suffix: string) {
    |suffix| <= |s| && s[|s| - |suffix|..] == suffix
  }

  lemma EndsWithAppend(s: string, t: string, suffix: string)
    requires EndsWith(t, suffix)
    ensures EndsWith(s + t, suffix)
  {
    assert (s + t)[|s + t| - |suffix|..] == t[|t| - |suffix|..];
  }

  lemma EndsWithExtend(s: string, suffix: string, u: string)
    requires EndsWith(s, suffix)
    ensures EndsWith(s + u, suffix + u)
  {
    assert (s + u)[|s + u| - |suffix + u|..] == s[|s| - |suffix|..] + u;
  }

  /** Lines whose last one ends with a line break join into text that ends with one. */
  lemma {:induction false} JoinEndsLine(lines: seq<string>)
    requires lines != [] && EndsLine(lines[|lines| - 1])
    ensures EndsWith(Join(lines), "\n")
  {
    if |lines| == 1 {
      assert Join(lines) == lines[0] + Join([]);
      assert Join(lines)[|Join(lines)| - 1..] == [lines[0][|lines[0]| - 1]];
    } else {
      JoinEndsLine(lines[1..]);
      EndsWithAppend(lines[0], Join(lines[1..]), "\n");
    }
  }

  /** The text of a part ends with a blank line. */
  lemma PartTextEndsBlank(p: Part)
    requires forall j :: 0 <= j < |p.body| ==> EndsLine(p.body[j])
    ensures EndsWith(Join(PartLines(p)), "\n\n")
  {
    var front := PartHeadLines(p) + p.body;
    assert PartLines(p) == front + ["\n"];
    JoinAppend(front, ["\n"]);
    assert Join(["\n"]) == "\n";
    if p.body == [] {
      assert front[|front| - 1] == "\n";
    } else {
      assert front[|front| - 1] == p.body[|p.body| - 1];
    }
    JoinEndsLine(front);
    EndsWithExtend(Join(front), "\n", "\n");
  }

  lemma {:induction false} PartsTextEndsBlank(ps: seq<Part>)
    requires ps != [] && BodiesEnded(ps)
    ensures EndsWith(Join(PartsLines(ps)), "\n\n")
  {
    assert forall j :: 0 <= j < |ps[0].body| ==> EndsLine(ps[0].body[j]);
    PartTextEndsBlank(ps[0]);
    JoinAppend(PartLines(ps[0]), PartsLines(ps[1..]));
    if |ps| == 1 {
      assert PartsLines(ps[1..]) == [];
      assert Join(PartsLines(ps)) == Join(PartLines(ps[0])) + [];
    } else {
      assert BodiesEnded(ps[1..]) by {
        forall i, j | 0 <= i < |ps[1..]| && 0 <= j < |ps[1..][i].body|
          ensures EndsLine(ps[1..][i].body[j])
        {
          assert ps[1..][i] == ps[i + 1];
        }
      }
      PartsTextEndsBlank(ps[1..]);
      EndsWithAppend(Join(PartLines(ps[0])), Join(PartsLines(ps[1..])), "\n\n");
    }
  }

  lemma PrefixOfAppend(a: string, b: string)
    ensures a <= a + b
  {
    assert (a + b)[..|a|] == a;
  }

  /** A document starts with the multipart Content-Type header naming the boundary. */
  lemma DocumentStartsWithHeader(trailingSpace: bool, ps: seq<Part>)
    ensures FramingHeader <= Document(trailingSpace, ps)
  {
    var lines := DocumentLines(trailingSpace, ps);
    assert lines[0] == HeaderLine(trailingSpace);
    assert Join(lines) == lines[0] + Join(lines[1..]);
    PrefixOfAppend(FramingHeader, if trailingSpace then " \n" else "\n");
    PrefixOfAppend(lines[0], Join(lines[1..]));
  }

  /** A document with at least one part ends with a blank line and the closing delimiter. */
  lemma DocumentEndsWithTrailer(trailingSpace: bool, ps: seq<Part>)
    requires ps != [] && BodiesEnded(ps)
    ensures EndsWith(Document(trailingSpace, ps), FramingTrailer)
  {
    var pre := PreambleLines(trailingSpace);
    var body := PartsLines(ps);
    JoinAppend(pre + body, [ClosingDelimiter]);
    JoinAppend(pre, body);
    assert Join([ClosingDelimiter]) == ClosingDelimiter + Join([]);
    assert Document(trailingSpace, ps) == Join(pre) + Join(body) + ClosingDelimiter;
    PartsTextEndsBlank(ps);
    EndsWithAppend(Join(pre), Join(body), "\n\n");
    EndsWithExtend(Join(pre) + Join(body), "\n\n", ClosingDelimiter);
  }

  /** The framing of the three documents getUserData can produce. */
  lemma FramingOfThree(a: string, b: string, c: string)
    ensures var d := Document(false, [CloudConfigPart(a), PasswdScriptPart(b), UserScriptPart(c)]);
      FramingHeader <= d && EndsWith(d, FramingTrailer)
  {
    KindsSubstitutable(a, b, c);
    DocumentStartsWithHeader(false, [CloudConfigPart(a), PasswdScriptPart(b), UserScriptPart(c)]);
    DocumentEndsWithTrailer(false, [CloudConfigPart(a), PasswdScriptPart(b), UserScriptPart(c)]);
  }

  lemma FramingOfTwo(a: string, b: string)
    ensures var d := Document(true, [CloudConfigPart(a), PasswdScriptPart(b)]);
      FramingHeader <= d && EndsWith(d, FramingTrailer)
  {
    KindsSubstitutable(a, b, "");
    DocumentStartsWithHeader(true, [CloudConfigPart(a), PasswdScriptPart(b)]);
    DocumentEndsWithTrailer(true, [CloudConfigPart(a), PasswdScriptPart(b)]);
  }

  lemma FramingOfOne(c: string)
    ensures var d := Document(true, [UserScriptPart(c)]);
      FramingHeader <= d && EndsWith(d, FramingTrailer)
  {
    KindsSubstitutable("", "", c);
    DocumentStartsWithHeader(true, [UserScriptPart(c)]);
    DocumentEndsWithTrailer(true, [UserScriptPart(c)]);
  }

  // ---------------------------------------------------------------------
  // getUserData

  /**
   * The replacement text has no `$`, so `replace` inserts it literally
   * (JavaScript reads `$&`, `$$`, `` $` `` and `$'` in it as patterns).
   */
  predicate NoDollar(v: Option<string>) {
    v.Some? ==> '$' !in v.value
  }

  /**
   * The cloud-init user data for a new instance. With both a password and a
   * script, the root password is set and the script is run; with only a
   * password, the password is set; otherwise the script is run, and an
   * undefined script is written as the text "undefined". In the first case
   * the password is substituted first, so a password that spells the data
   * sentinel has the script spliced into it.
   */
  function GetUserData(password: Option<string>, userData: Option<string>): (r: string)
    requires NoDollar(password) && NoDollar(userData)
    ensures Truthy(password) && Truthy(userData) ==>
      var pw := ReplaceAll(password.value, DataSentinel, userData.value);
      r == Document(false, [CloudConfigPart(pw), PasswdScriptPart(pw), UserScriptPart(userData.value)])
    ensures Truthy(password) && !Truthy(userData) ==>
      r == Document(true, [CloudConfigPart(password.value), PasswdScriptPart(password.value)])
    ensures !Truthy(password) ==> r == Document(true, [UserScriptPart(ToText(userData))])
    ensures !Truthy(password) && userData.None? ==> r == Document(true, [UserScriptPart("undefined")])
  {
    if Truthy(password) && Truthy(userData) then
      FillBoth(password.value, userData.value)
    else if Truthy(password) then
      FillPasswordOnly(password.value)
    else
      FillUserDataOnly(ToText(userData))
  }

  /**
   * Whatever the inputs, the user data opens with the multipart header and
   * ends with a blank line and the closing delimiter.
   */
  lemma GetUserDataFraming(password: Option<string>, userData: Option<string>)
    requires NoDollar(password) && NoDollar(userData)
    ensures var r := GetUserData(password, userData);
      FramingHeader <= r && EndsWith(r, FramingTrailer)
  {
    if Truthy(password) && Truthy(userData) {
      var pw := ReplaceAll(password.value, DataSentinel, userData.value);
      FramingOfThree(pw, pw, userData.value);
    } else if Truthy(password) {
      FramingOfTwo(password.value, password.value);
    } else {
      FramingOfOne(ToText(userData));
    }
  }

  /** A password that does not spell the data sentinel reaches both password lines unchanged. */
  lemma PasswordKeptVerbatim(password: string, script: string)
    requires password != "" && script != "" && '$' !in password && '$' !in script
    requires !Occurs(password, DataSentinel)
    ensures GetUserData(Some(password), Some(script))
         == Document(false, [CloudConfigPart(password), PasswdScriptPart(password), UserScriptPart(script)])
  {
    ReplaceAllNoOccurrence(password, DataSentinel, script);
  }

  /**
   * A password that ends with the data sentinel has the script written into
   * it: the password lines carry the password's prefix followed by the
   * script. The prefix holds no sentinel and does not end in one of the
   * sentinel's characters, so no occurrence straddles the seam.
   */
  lemma PasswordSpellingDataSentinel(prefix: string, script: string)
    requires '$' !in prefix && !Occurs(prefix, DataSentinel)
    requires prefix == [] || prefix[|prefix| - 1] !in DataSentinel
    requires script != "" && '$' !in script
    ensures var pw := prefix + DataSentinel;
      GetUserData(Some(pw), Some(script))
      == Document(false, [CloudConfigPart(prefix + script), PasswdScriptPart(prefix + script), UserScriptPart(script)])
  {
    assert '$' !in DataSentinel;
    assert '$' !in prefix + DataSentinel;
    ReplaceAllConcat(prefix, DataSentinel, DataSentinel, script);
    ReplaceAllNoOccurrence(prefix, DataSentinel, script);
    ReplaceAllOfPattern(DataSentinel, script);
  }

  /** The password `Secret1USER_DATA` reaches the password lines as `Secret1` followed by the script. */
  lemma SecretPasswordSpellingDataSentinel(script: string)
    requires script != "" && '$' !in script
    ensures GetUserData(Some("Secret1USER_DATA"), Some(script))
      == Document(false, [CloudConfigPart("Secret1" + script), PasswdScriptPart("Secret1" + script), UserScriptPart(script)])
  {
    assert "Secret1" + DataSentinel == "Secret1USER_DATA";
    assert !Occurs("Secret1", DataSentinel);
    PasswordSpellingDataSentinel("Secret1", script);
  }
}
