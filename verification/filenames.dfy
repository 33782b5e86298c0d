/** The two string rules of the ingestion panel: the download name derived
    from the export path the server returns, and the advisory shown under
    the export-file input when the name does not end in `.csv`. */
module Filenames {
  import opened Text

  /** Both path-separator conventions the download name strips. */
  const Separators: set<char> := {'/', '\\'}

  /** The name offered for download: the piece after the last `/`, then the
      piece of that after the last `\`, falling back to the whole path when
      that piece is empty. */
  function SafeFilename(path: string): (name: string)
    ensures name == "" <==> path == ""
    ensures '/' !in path && '\\' !in path ==> name == path
    ensures name != path ==> '\\' !in name
  {
    var base := AfterLast(AfterLast(path, '/'), '\\');
    if base == "" then path else base
  }

  /** The segment the two splits keep is the final segment of the path with
      respect to both separators. */
  lemma BaseNameIsFinalSegment(path: string)
    ensures IsFinalSegment(path, Separators, AfterLast(AfterLast(path, '/'), '\\'))
  {
    var a := AfterLast(path, '/');
    AfterLastIsFinalSegment(path, '/');
    AfterLastIsFinalSegment(a, '\\');
    FinalSegmentCompose(path, a, AfterLast(a, '\\'), '/', '\\');
  }

  /** The download name agrees with any independent definition of "the part
      after the last separator": when that part is non-empty the name is
      exactly it (a separator-free suffix of the path), otherwise the name
      is the whole path. */
  lemma {:induction false} SafeFilenameIsBaseName(path: string, base: string)
    requires IsFinalSegment(path, Separators, base)
    ensures SafeFilename(path) == (if base == "" then path else base)
  {
    BaseNameIsFinalSegment(path);
    FinalSegmentUnique(path, Separators, base, AfterLast(AfterLast(path, '/'), '\\'));
  }

  /** A name that differs from the path is a non-empty suffix of it that
      holds neither separator. */
  lemma SafeFilenameIsSeparatorFreeSuffix(path: string)
    ensures var name := SafeFilename(path);
      name != path ==>
        && name != ""
        && EndsWith(path, name)
        && '/' !in name && '\\' !in name
  {
    BaseNameIsFinalSegment(path);
    var name := SafeFilename(path);
    if name != path {
      forall i | 0 <= i < |name|
        ensures name[i] != '/' && name[i] != '\\'
      {
        assert name[i] !in Separators;
      }
    }
  }

  /** An export written under `/tmp`. */
  lemma SafeFilenameOfUnixPath()
    ensures SafeFilename("/tmp/export.csv") == "export.csv"
  {
    SafeFilenameIsBaseName("/tmp/export.csv", "export.csv");
  }

  /** A Windows-style path loses its directories as well. */
  lemma SafeFilenameOfWindowsPath()
    ensures SafeFilename("C:\\exports\\out.csv") == "out.csv"
  {
    SafeFilenameIsBaseName("C:\\exports\\out.csv", "out.csv");
  }

  /** A path ending in a separator has an empty last piece, so the whole
      path is kept. */
  lemma SafeFilenameOfTrailingSeparator()
    ensures SafeFilename("exports/") == "exports/"
  {
    SafeFilenameIsBaseName("exports/", "");
  }

  /** Whether the panel shows "File name should end with `.csv`": the
      lower-cased name does not end in `.csv`. */
  function CsvAdvisory(targetFile: string): (shown: bool)
    ensures shown <==> !(|targetFile| >= 4 && ToLower(targetFile[|targetFile| - 4..]) == ".csv")
  {
    ToLowerSuffix(targetFile, if |targetFile| >= 4 then |targetFile| - 4 else 0);
    !EndsWith(ToLower(targetFile), ".csv")
  }

  /** Any name whose extension lower-cases to `.csv` silences the advisory,
      whatever the case of the letters. */
  lemma {:induction false} CsvAdvisoryIgnoresCase(stem: string, ext: string)
    requires ToLower(ext) == ".csv"
    ensures !CsvAdvisory(stem + ext)
  {
    var name := stem + ext;
    assert name[|name| - 4..] == ext;
  }

  /** The default export name raises no advisory. */
  lemma DefaultExportNameHasNoAdvisory()
    ensures !CsvAdvisory("export.csv")
  {
    var ext := ".csv";
    assert ToLower(ext) == ext by {
      assert forall i :: 0 <= i < |ext| ==> LowerChar(ext[i]) == ext[i];
    }
    assert "export.csv" == "export" + ext;
    CsvAdvisoryIgnoresCase("export", ext);
  }

  /** A name with another extension raises it. */
  lemma TsvNameHasAdvisory()
    ensures CsvAdvisory("export.tsv")
  {
    var name := "export.tsv";
    assert ToLower(name[6..])[1] == LowerChar('t') == 't';
  }
}
