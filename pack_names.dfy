/** The mapping from a task pack's id to the name of the tool that exposes it
    (`packIdToToolName`). Each character is mapped on its own: `.` becomes
    `-`, ASCII letters, digits, `-` and `_` are kept, everything else becomes
    `_`. */
module PackNames {

  /** The characters a tool name may contain: `[A-Za-z0-9_-]`. */
  predicate IsToolNameChar(c: char) {
    ('a' <= c <= 'z') || ('A' <= c <= 'Z') || ('0' <= c <= '9') || c == '-' || c == '_'
  }

  predicate IsToolName(s: string) {
    forall i :: 0 <= i < |s| ==> IsToolNameChar(s[i])
  }

  function SanitizeChar(c: char): (d: char)
    ensures IsToolNameChar(d)
    ensures IsToolNameChar(c) ==> d == c
  {
    if c == '.' then '-' else if IsToolNameChar(c) then c else '_'
  }

  /** `packIdToToolName(id)`. */
  function PackIdToToolName(id: string): (name: string)
    ensures |name| == |id|
    ensures forall i :: 0 <= i < |id| ==> name[i] == SanitizeChar(id[i])
    ensures IsToolName(name)
  {
    if id == [] then [] else [SanitizeChar(id[0])] + PackIdToToolName(id[1..])
  }

  /** Every `.` becomes `-`. */
  lemma DotsBecomeDashes(id: string, i: nat)
    requires i < |id| && id[i] == '.'
    ensures PackIdToToolName(id)[i] == '-'
  {
  }

  /** Letters, digits, `-` and `_` are kept where they are. */
  lemma ValidCharsKept(id: string, i: nat)
    requires i < |id| && IsToolNameChar(id[i])
    ensures PackIdToToolName(id)[i] == id[i]
  {
  }

  /** Any other character becomes `_`. */
  lemma OtherCharsBecomeUnderscores(id: string, i: nat)
    requires i < |id| && id[i] != '.' && !IsToolNameChar(id[i])
    ensures PackIdToToolName(id)[i] == '_'
  {
  }

  /** A string that already is a valid tool name is its own tool name. */
  lemma {:induction false} ToolNameFixedPoint(s: string)
    requires IsToolName(s)
    ensures PackIdToToolName(s) == s
  {
    if s != [] {
      ToolNameFixedPoint(s[1..]);
    }
  }

  /** Sanitising twice is sanitising once. */
  lemma SanitizeIdempotent(id: string)
    ensures PackIdToToolName(PackIdToToolName(id)) == PackIdToToolName(id)
  {
    ToolNameFixedPoint(PackIdToToolName(id));
  }

  /** The mapping is not injective: distinct ids can share a tool name. */
  lemma DistinctIdsMayCollide()
    ensures PackIdToToolName("a.b") == PackIdToToolName("a-b")
    ensures PackIdToToolName("a@b") == PackIdToToolName("a!b")
  {
  }

  /** The tool name is determined character by character. */
  lemma PointwiseToolName(id: string, name: string)
    requires |name| == |id| && forall i :: 0 <= i < |id| ==> name[i] == SanitizeChar(id[i])
    ensures PackIdToToolName(id) == name
  {
  }

  // The assertions of packDiscovery.test.ts, one lemma per case.

  lemma ExampleDotsReplaced()
    ensures PackIdToToolName("example.site.collector") == "example-site-collector"
  {
    PointwiseToolName("example.site.collector", "example-site-collector");
  }

  lemma ExampleDashUnderscoreDigitKept()
    ensures PackIdToToolName("my-pack_v1") == "my-pack_v1"
  {
    PointwiseToolName("my-pack_v1", "my-pack_v1");
  }

  lemma ExampleAlphanumericKept()
    ensures PackIdToToolName("pack123ABC") == "pack123ABC"
  {
    PointwiseToolName("pack123ABC", "pack123ABC");
  }

  lemma ExampleAtReplaced()
    ensures PackIdToToolName("pack@v1") == "pack_v1"
  {
    PointwiseToolName("pack@v1", "pack_v1");
  }

  lemma ExampleSpecialCharsReplaced()
    ensures PackIdToToolName("pack@v1!test") == "pack_v1_test"
  {
    PointwiseToolName("pack@v1!test", "pack_v1_test");
  }

  lemma ExampleManySpecialCharsReplaced()
    ensures PackIdToToolName("a@b#c$d%e") == "a_b_c_d_e"
  {
    PointwiseToolName("a@b#c$d%e", "a_b_c_d_e");
  }

  lemma ExampleEmptyId()
    ensures PackIdToToolName("") == ""
  {
    PointwiseToolName("", "");
  }

  lemma ExampleOnlySpecialChars()
    ensures PackIdToToolName("!@#$%") == "_____"
  {
    PointwiseToolName("!@#$%", "_____");
  }

  lemma ExampleSpacesReplaced()
    ensures PackIdToToolName("my pack name") == "my_pack_name"
  {
    PointwiseToolName("my pack name", "my_pack_name");
  }

  lemma ExampleHyphensKept()
    ensures PackIdToToolName("my-task-pack") == "my-task-pack"
  {
    PointwiseToolName("my-task-pack", "my-task-pack");
  }

  lemma ExampleUnderscoresKept()
    ensures PackIdToToolName("my_task_pack") == "my_task_pack"
  {
    PointwiseToolName("my_task_pack", "my_task_pack");
  }

  lemma ExampleDottedIdConverted()
    ensures PackIdToToolName("com.example.pack") == "com-example-pack"
  {
    PointwiseToolName("com.example.pack", "com-example-pack");
  }

  lemma ExampleMixedCharsConverted()
    ensures PackIdToToolName("my-pack.v1@beta!test") == "my-pack-v1_beta_test"
  {
    PointwiseToolName("my-pack.v1@beta!test", "my-pack-v1_beta_test");
  }
}
