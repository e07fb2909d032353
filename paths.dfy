/**
 * Path and name derivation for the new sound source asset, with the two
 * engine path helpers it goes through.
 */
module Paths {

  /** Suffix appended to the folder's base name to name the new asset. */
  const SongSourceSuffix: string := "_SongSrc"

  /** Object path of the template MetaSound source that every folder duplicates. */
  const TemplateObjectPath: string := "/Game/OvaniSound/MetaSounds/TEMPLATE_SONG_SRC.TEMPLATE_SONG_SRC"

  /**
   * `FPackageName::ObjectPathToPackageName`: an object path `Package.Object`
   * names its package by the part before the first '.'; a path without a
   * '.' is already a package name.
   */
  function ObjectPathToPackageName(objectPath: string): (r: string)
    ensures r <= objectPath
    ensures '.' !in r
    ensures '.' in objectPath ==> |r| < |objectPath| && objectPath[|r|] == '.'
    ensures '.' !in objectPath ==> r == objectPath
  {
    if objectPath == [] || objectPath[0] == '.' then []
    else [objectPath[0]] + ObjectPathToPackageName(objectPath[1..])
  }

  /**
   * Stand-in for `FPaths::GetBaseFilename` on a content-browser folder path:
   * the last '/'-separated segment.
   */
  function BaseFilename(path: string): (r: string)
    ensures |r| <= |path|
    ensures forall k :: 0 <= k < |r| ==> r[k] == path[|path| - |r| + k]
    ensures '/' !in r
    ensures |r| < |path| ==> path[|path| - |r| - 1] == '/'
  {
    if path == [] || path[|path| - 1] == '/' then []
    else BaseFilename(path[..|path| - 1]) + [path[|path| - 1]]
  }

  /** Name of the asset created for `folder`: its base name followed by "_SongSrc". */
  function NewAssetName(folder: string): string
  {
    BaseFilename(folder) + SongSourceSuffix
  }

  /** Package the duplicate is written to: `<newAssetPath>/<newAssetName>`, as a package name. */
  function DuplicateTarget(newAssetPath: string, newAssetName: string): string
  {
    ObjectPathToPackageName(newAssetPath + "/" + newAssetName)
  }

  /** Package path of the template, as the menu action computes it. */
  function TemplatePackage(): string
  {
    ObjectPathToPackageName(TemplateObjectPath)
  }

  /** The package of `Package.ObjectName` is `Package`. */
  lemma PackageOfObjectPath(package: string, objectName: string)
    requires '.' !in package
    ensures ObjectPathToPackageName(package + "." + objectName) == package
  {
    assert (package + "." + objectName)[|package|] == '.';
  }

  lemma TemplateFolderPieces()
    ensures "/Game/OvaniSound/MetaSounds/TEMPLATE_SONG_SRC" ==
      "/Game" + "/OvaniSound" + "/MetaSounds" + "/TEMPLATE_SONG_SRC"
  {
  }

  lemma TemplateFolderHasNoDot()
    ensures '.' !in "/Game/OvaniSound/MetaSounds/TEMPLATE_SONG_SRC"
  {
    TemplateFolderPieces();
    var a, b, c, d := "/Game", "/OvaniSound", "/MetaSounds", "/TEMPLATE_SONG_SRC";
    assert '.' !in a;
    assert '.' !in b;
    assert '.' !in c;
    assert '.' !in d;
    assert '.' !in a + b + c + d;
  }

  lemma TemplateObjectPathParts()
    ensures TemplateObjectPath == "/Game/OvaniSound/MetaSounds/TEMPLATE_SONG_SRC" + "." + "TEMPLATE_SONG_SRC"
  {
  }

  /** The template is looked up by its package path. */
  lemma TemplatePackageIsTemplateFolderAsset()
    ensures TemplatePackage() == "/Game/OvaniSound/MetaSounds/TEMPLATE_SONG_SRC"
  {
    TemplateObjectPathParts();
    TemplateFolderHasNoDot();
    PackageOfObjectPath("/Game/OvaniSound/MetaSounds/TEMPLATE_SONG_SRC", "TEMPLATE_SONG_SRC");
  }

  lemma SuffixHasNoSeparator()
    ensures '.' !in SongSourceSuffix && '/' !in SongSourceSuffix
  {
  }

  /** Appending a character other than '/' appends it to the base name. */
  lemma BaseFilenameSnoc(path: string, c: char)
    requires c != '/'
    ensures BaseFilename(path + [c]) == BaseFilename(path) + [c]
  {
    var s := path + [c];
    assert s[..|s| - 1] == path;
  }

  /** The base name of `dir/leaf` is `leaf` when `leaf` has no '/'. */
  lemma {:induction false} BaseFilenameOfChild(dir: string, leaf: string)
    requires '/' !in leaf
    ensures BaseFilename(dir + "/" + leaf) == leaf
    decreases |leaf|
  {
    if leaf == [] {
      var s := dir + "/" + leaf;
      assert s[|s| - 1] == '/';
    } else {
      var init := leaf[..|leaf| - 1];
      var last := leaf[|leaf| - 1];
      assert leaf == init + [last];
      assert dir + "/" + leaf == (dir + "/" + init) + [last];
      assert '/' !in init by {
        forall k | 0 <= k < |init| ensures init[k] != '/' { assert init[k] == leaf[k]; }
      }
      BaseFilenameOfChild(dir, init);
      BaseFilenameSnoc(dir + "/" + init, last);
    }
  }

  /** No '.' in a path means none in its base name. */
  lemma BaseFilenameHasNoDot(path: string)
    requires '.' !in path
    ensures '.' !in BaseFilename(path)
  {
    var b := BaseFilename(path);
    forall k | 0 <= k < |b| ensures b[k] != '.' {
      assert b[k] == path[|path| - |b| + k];
    }
  }

  /** A child `leaf` of a directory without '.' is its own package, and its base name is `leaf`. */
  lemma ChildPackage(dir: string, leaf: string)
    requires '.' !in dir && '.' !in leaf && '/' !in leaf
    ensures DuplicateTarget(dir, leaf) == dir + "/" + leaf
    ensures BaseFilename(DuplicateTarget(dir, leaf)) == leaf
  {
    assert '.' !in dir + "/" + leaf;
    BaseFilenameOfChild(dir, leaf);
  }

  /**
   * For a folder path without '.', the duplicate is written directly inside
   * the selected folder, and its last path segment is the new asset name.
   */
  lemma NewAssetLandsInFolder(folder: string)
    requires '.' !in folder
    ensures DuplicateTarget(folder, NewAssetName(folder)) == folder + "/" + NewAssetName(folder)
    ensures BaseFilename(DuplicateTarget(folder, NewAssetName(folder))) == NewAssetName(folder)
  {
    var base := BaseFilename(folder);
    BaseFilenameHasNoDot(folder);
    SuffixHasNoSeparator();
    assert '.' !in base + SongSourceSuffix;
    assert '/' !in base + SongSourceSuffix;
    ChildPackage(folder, NewAssetName(folder));
  }
}
