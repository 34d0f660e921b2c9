/** The display rules of `SourcesSidebar`: the drag-resize width clamp, the
    source count label, and, per source card, the icon category, the
    width-dependent title and description truncation and the link label. */
module SourcesSidebar {
  import opened JsValues
  import opened JsStrings
  import opened ChatTypes
  import opened AppConfig

  /** `Math.min(Math.max(x, lo), hi)`. */
  function Clamp(x: real, lo: real, hi: real): (w: real)
    ensures lo <= hi ==> lo <= w <= hi
    ensures lo <= hi && lo <= x <= hi ==> w == x
    ensures lo <= hi && x <= lo ==> w == lo
    ensures lo <= hi && hi <= x ==> w == hi
    ensures lo > hi ==> w == hi
    ensures w == x || w == lo || w == hi
  {
    var atLeast := if x > lo then x else lo;
    if atLeast < hi then atLeast else hi
  }

  /** The width a drag to `clientX` asks for: the distance from the pointer
      to the right edge of the window, clamped to the allowed range. */
  function DragWidth(windowWidth: real, clientX: real, minWidth: real, maxWidth: real): (w: real)
    ensures minWidth <= maxWidth ==> minWidth <= w <= maxWidth
    ensures minWidth <= maxWidth && minWidth <= windowWidth - clientX <= maxWidth ==> w == windowWidth - clientX
    ensures minWidth <= maxWidth && windowWidth - clientX <= minWidth ==> w == minWidth
    ensures minWidth <= maxWidth && maxWidth <= windowWidth - clientX ==> w == maxWidth
    ensures minWidth > maxWidth ==> w == maxWidth
  {
    Clamp(windowWidth - clientX, minWidth, maxWidth)
  }

  /** Clamping a width that is already clamped changes nothing, so a drag
      that ends where it started reports the same width again. */
  lemma ClampIdempotent(x: real, lo: real, hi: real)
    ensures Clamp(Clamp(x, lo, hi), lo, hi) == Clamp(x, lo, hi)
  {
  }

  /** The header's `{n} source{s} found`. */
  function CountLabel(n: nat): string {
    NatToString(n) + " source" + (if n != 1 then "s" else "") + " found"
  }

  /** The count label reads back as the count, and is singular exactly when
      there is one source. */
  lemma CountLabelReadsBack(n: nat)
    ensures var r := CountLabel(n);
            var digits := NatToString(n);
            && digits <= r && ParseDigits(digits) == n
            && (r == digits + " source found" <==> n == 1)
            && (r == digits + " sources found" <==> n != 1)
  {
    ParseNatToString(n);
    var digits := NatToString(n);
    assert (digits + " source found")[|digits| + 7] == ' ';
    assert (digits + " sources found")[|digits| + 7] == 's';
  }

  /** The icon categories of `getFileIcon`. */
  datatype FileIcon = TestFile | ConfigFile | PythonFile | ScriptFile | GoFile | PlainFile

  function IconForType(fileType: Option<string>): FileIcon {
    match fileType
    case Some(t) =>
      if t == "python" || t == "py" then PythonFile
      else if t == "javascript" || t == "typescript" || t == "js" || t == "ts" then ScriptFile
      else if t == "go" then GoFile
      else PlainFile
    case None => PlainFile
  }

  /** `getFileIcon(fileType, isTest, isConfig)`: a test flag beats a
      configuration flag, which beats the file type. */
  function GetFileIcon(fileType: Option<string>, isTest: Option<bool>, isConfig: Option<bool>): (icon: FileIcon)
    ensures isTest == Some(true) <==> icon == TestFile
    ensures isTest != Some(true) && isConfig == Some(true) <==> icon == ConfigFile
    ensures isTest != Some(true) && isConfig != Some(true) ==> icon == IconForType(fileType)
    ensures fileType.None? && isTest != Some(true) && isConfig != Some(true) ==> icon == PlainFile
  {
    if isTest == Some(true) then TestFile
    else if isConfig == Some(true) then ConfigFile
    else IconForType(fileType)
  }

  /** Sources built from a stream never carry the test or configuration
      flags, so their icon depends on the file type alone and is never the
      test or configuration icon. */
  lemma StreamedSourceIcon(s: Source)
    requires s.isTest.None? && s.isConfig.None?
    ensures GetFileIcon(s.fileType, s.isTest, s.isConfig) == IconForType(s.fileType)
    ensures GetFileIcon(s.fileType, s.isTest, s.isConfig) !in {TestFile, ConfigFile}
  {
  }

  const VeryNarrow: real := 180.0
  const Narrow: real := 250.0

  /** `text.substring(0, n) + '...'` when `text` is longer than `n`. */
  function Ellipsize(text: string, n: nat): (r: string)
    ensures |text| <= n ==> r == text
    ensures |text| > n ==> |r| == n + 3 && r[..n] == text[..n] && r[n..] == "..."
  {
    if |text| > n then Take(text, n) + "..." else text
  }

  /** The card title at a sidebar `width`: very narrow cards cut titles over
      20 characters, narrow ones titles over 30; wider cards show them whole. */
  function DisplayTitle(title: string, width: real): (r: string)
    ensures width >= Narrow ==> r == title
    ensures width < VeryNarrow && |title| > 20 ==> r == title[..20] + "..."
    ensures VeryNarrow <= width < Narrow && |title| > 30 ==> r == title[..30] + "..."
    ensures VeryNarrow <= width < Narrow && |title| <= 30 ==> r == title
    ensures width < VeryNarrow ==> |r| <= 23
    ensures width < Narrow ==> |r| <= 33
    ensures |title| <= 20 ==> r == title
    ensures r == title || (|r| >= 3 && r[..|r| - 3] <= title && |r| - 3 < |title| && r[|r| - 3..] == "...")
  {
    if width < VeryNarrow && |title| > 20 then Ellipsize(title, 20)
    else if width < Narrow && |title| > 30 then Ellipsize(title, 30)
    else title
  }

  /** Widening a card never shows less of a title: a title shown whole
      stays whole, and a title cut at both widths keeps at least as long a
      prefix at the wider one. */
  lemma WiderCardShowsMoreTitle(title: string, w1: real, w2: real)
    requires w1 <= w2
    ensures DisplayTitle(title, w1) == title ==> DisplayTitle(title, w2) == title
    ensures var a := DisplayTitle(title, w1);
            var b := DisplayTitle(title, w2);
            a != title && b != title ==> |a| <= |b| && a[..|a| - 3] <= b[..|b| - 3]
  {
  }

  /** The description block: hidden when the description is empty or the
      card is very narrow, otherwise cut to 100 characters (narrow) or 200,
      with "..." only when something was cut. */
  function DisplayDescription(description: Option<string>, width: real): (r: Option<string>)
    ensures r.None? <==> !Truthy(description) || width < VeryNarrow
    ensures r.Some? ==> var limit := if width < Narrow then 100 else 200;
      && (|description.value| <= limit ==> r.value == description.value)
      && (|description.value| > limit ==>
           |r.value| == limit + 3 && r.value[..limit] == description.value[..limit] && r.value[limit..] == "...")
  {
    if !Truthy(description) || width < VeryNarrow then None
    else Some(Ellipsize(description.value, if width < Narrow then 100 else 200))
  }

  /** Widening a card never shows less of a description: one shown stays
      shown, one shown whole stays whole, and a cut one keeps at least as
      long a prefix at the wider width. */
  lemma WiderCardShowsMoreDescription(description: Option<string>, w1: real, w2: real)
    requires w1 <= w2
    ensures var a := DisplayDescription(description, w1);
            var b := DisplayDescription(description, w2);
            && (a.Some? ==> b.Some?)
            && (a.Some? && a.value == description.value ==> b.value == description.value)
            && (a.Some? && a.value != description.value && b.value != description.value ==>
                 |a.value| <= |b.value| && a.value[..|a.value| - 3] <= b.value[..|b.value| - 3])
  {
  }

  /** The link label: a GitHub link shows what follows the GitHub prefix up
      to the first "/blob/", "#" shows "Local file", any other link itself. */
  function UrlLabel(url: string): (r: string)
    ensures GitHubPrefix <= url ==>
      && r <= url[|GitHubPrefix|..]
      && (forall j :: 0 <= j < |r| ==> !OccursAt(url[|GitHubPrefix|..], "/blob/", j))
      && (r == url[|GitHubPrefix|..] || OccursAt(url[|GitHubPrefix|..], "/blob/", |r|))
    ensures !(GitHubPrefix <= url) && url == "#" ==> r == "Local file"
    ensures !(GitHubPrefix <= url) && url != "#" ==> r == url
  {
    if GitHubPrefix <= url then BeforeFirst(url[|GitHubPrefix|..], "/blob/")
    else if url != "#" then url
    else "Local file"
  }

  /** The label of a generated link is the `owner/repo` it was generated
      from, as long as "/blob/" does not start inside that name. */
  lemma UrlLabelOfLink(repoName: Option<string>, path: Option<string>)
    requires Truthy(repoName) && Truthy(path)
    requires var owner := OwnerRepo(repoName.value);
      forall j :: 0 <= j < |owner| ==> !OccursAt(owner + "/blob/", "/blob/", j)
    ensures UrlLabel(GenerateGitHubUrl(repoName, path)) == OwnerRepo(repoName.value)
  {
    var owner := OwnerRepo(repoName.value);
    var url := GenerateGitHubUrl(repoName, path);
    GitHubUrlShape(repoName, path);
    var rest := url[|GitHubPrefix|..];
    var s := owner + "/blob/";
    assert rest == s + "main/" + path.value;
    LabelIsFirstOccurrence(rest, s, |owner|);
  }

  /** When "/blob/" ends the prefix `s` of `rest` and starts nowhere earlier
      in `s`, the label part is the text before it. */
  lemma LabelIsFirstOccurrence(rest: string, s: string, n: nat)
    requires s <= rest && n + 6 == |s| && s[n..] == "/blob/"
    requires forall j :: 0 <= j < n ==> !OccursAt(s, "/blob/", j)
    ensures BeforeFirst(rest, "/blob/") == rest[..n]
  {
    assert rest[n..n + 6] == s[n..];
    assert OccursAt(rest, "/blob/", n);
    forall j | 0 <= j < n
      ensures !OccursAt(rest, "/blob/", j)
    {
      if OccursAt(rest, "/blob/", j) {
        assert rest[j..j + 6] == s[j..j + 6];
        assert OccursAt(s, "/blob/", j);
      }
    }
    var r := BeforeFirst(rest, "/blob/");
    assert |r| <= n;
    assert |r| >= n;
  }

  /** For a repository name without a slash, other than "blob", the label
      is `Orange-Health/{repoName}`. */
  lemma UrlLabelOfUnqualifiedLink(repoName: Option<string>, path: Option<string>)
    requires Truthy(repoName) && Truthy(path)
    requires '/' !in repoName.value && repoName.value != "blob"
    ensures UrlLabel(GenerateGitHubUrl(repoName, path)) == DefaultOrganization + "/" + repoName.value
  {
    var name := repoName.value;
    var owner := OwnerRepo(name);
    var s := owner + "/blob/";
    assert owner == DefaultOrganization + "/" + name;
    forall j | 0 <= j < |owner|
      ensures !OccursAt(s, "/blob/", j)
    {
      if j < 13 {
        assert s[j] == DefaultOrganization[j];
        MismatchNotOccurs(s, "/blob/", j, 0);
      } else if j > 13 {
        assert s[j] == name[j - 14];
        MismatchNotOccurs(s, "/blob/", j, 0);
      } else if |name| < 4 {
        assert s[14 + |name|] == '/';
        MismatchNotOccurs(s, "/blob/", j, |name| + 1);
      } else if |name| == 4 {
        assert s[13..19] == "/" + name + "/";
        assert ("/" + name + "/")[1..5] == name;
      } else {
        assert s[18] == name[4];
        MismatchNotOccurs(s, "/blob/", j, 5);
      }
    }
    UrlLabelOfLink(repoName, path);
  }

  /** A repository literally named "blob" loses its own name from the
      label: the first "/blob/" is found inside the name. */
  lemma BlobRepoLabel(path: string)
    requires path != ""
    ensures UrlLabel(GenerateGitHubUrl(Some("blob"), Some(path))) == DefaultOrganization
  {
    var url := GenerateGitHubUrl(Some("blob"), Some(path));
    GitHubUrlShape(Some("blob"), Some(path));
    var rest := url[|GitHubPrefix|..];
    var s := DefaultOrganization + "/blob/";
    assert rest == s + "blob/main/" + path;
    forall j | 0 <= j < 13 ensures !OccursAt(s, "/blob/", j) {
      assert s[j] == DefaultOrganization[j];
      MismatchNotOccurs(s, "/blob/", j, 0);
    }
    LabelIsFirstOccurrence(rest, s, 13);
  }
}
