/** The save-file format: the record text `save_current_game` writes, the
    split `select_save` reads it back with, and the name `find_saves` cuts
    out of a listed path. Opening, writing, listing and removing files are
    not modelled. */
module SaveFile {
  import opened Text
  import opened PetState

  /** The six fields of a record, in the order they are written: name,
      health, hunger, happiness, style name, age. */
  function SaveFields(p: Pet): (fs: seq<string>)
    ensures |fs| == 6 && fs[0] == p.name && fs[4] == p.styleName
    ensures ParseInt(fs[1]) == Some(p.health) && ParseInt(fs[2]) == Some(p.hunger)
    ensures ParseInt(fs[3]) == Some(p.happiness) && ParseInt(fs[5]) == Some(p.age)
  {
    DecimalRoundTrip(p.health);
    DecimalRoundTrip(p.hunger);
    DecimalRoundTrip(p.happiness);
    DecimalRoundTrip(p.age);
    [p.name, Decimal(p.health), Decimal(p.hunger), Decimal(p.happiness), p.styleName, Decimal(p.age)]
  }

  /** The text `save_current_game` writes: the six fields joined by newlines. */
  function SaveRecord(p: Pet): (r: string)
    ensures r == Join(SaveFields(p), '\n')
  {
    var fs := SaveFields(p);
    assert Join(fs[4..], '\n') == fs[4] + "\n" + fs[5];
    assert fs[3..][1..] == fs[4..] && fs[2..][1..] == fs[3..] && fs[1..][1..] == fs[2..];
    assert Join(fs[3..], '\n') == fs[3] + "\n" + Join(fs[4..], '\n');
    assert Join(fs[2..], '\n') == fs[2] + "\n" + Join(fs[3..], '\n');
    assert Join(fs[1..], '\n') == fs[1] + "\n" + Join(fs[2..], '\n');
    p.name + "\n" + Decimal(p.health) + "\n" + Decimal(p.hunger) + "\n" +
    Decimal(p.happiness) + "\n" + p.styleName + "\n" + Decimal(p.age)
  }

  /** What loading a save file can come to. `start_game` takes exactly six
      arguments, so any other number of lines is a failed call. */
  datatype LoadResult =
    | NothingSelected
    | Loaded(name: string, health: string, hunger: string, happiness: string, styleName: string, age: string)
    | WrongFieldCount(count: nat)

  /** The fields of a save file's text, split on newlines. */
  function LoadRecord(contents: string): (r: LoadResult)
    ensures !r.NothingSelected?
    ensures r.Loaded? <==> multiset(contents)['\n'] == 5
    ensures r.WrongFieldCount? ==> r.count == multiset(contents)['\n'] + 1
    ensures r.Loaded? ==>
      Join([r.name, r.health, r.hunger, r.happiness, r.styleName, r.age], '\n') == contents
  {
    var fs := Split(contents, '\n');
    if |fs| == 6 then
      JoinSplit(contents, '\n');
      assert fs == [fs[0], fs[1], fs[2], fs[3], fs[4], fs[5]];
      Loaded(fs[0], fs[1], fs[2], fs[3], fs[4], fs[5])
    else WrongFieldCount(|fs|)
  }

  /** `select_save`: nothing happens without a selected name; otherwise the
      file's contents are split into the arguments of `start_game`. */
  function SelectSave(fileName: string, contents: string): (r: LoadResult)
    ensures fileName == "" <==> r.NothingSelected?
    ensures fileName != "" ==> r == LoadRecord(contents)
  {
    if fileName == "" then NothingSelected else LoadRecord(contents)
  }

  /** A saved pet loads back field for field, and its numbers read back as
      the same integers, provided its name and style contain no newline. */
  lemma SaveThenLoad(p: Pet)
    requires '\n' !in p.name && '\n' !in p.styleName
    ensures var r := LoadRecord(SaveRecord(p));
      r.Loaded? && [r.name, r.health, r.hunger, r.happiness, r.styleName, r.age] == SaveFields(p) &&
      ParseInt(r.health) == Some(p.health) && ParseInt(r.hunger) == Some(p.hunger) &&
      ParseInt(r.happiness) == Some(p.happiness) && ParseInt(r.age) == Some(p.age)
  {
    var fs := SaveFields(p);
    assert forall k :: 0 <= k < 6 ==> '\n' !in fs[k];
    SplitJoin(fs, '\n');
    assert Split(SaveRecord(p), '\n') == fs;
  }

  // ---------------------------------------------------------------------
  // File names

  /** The file `save_current_game` writes for a pet called `name`. */
  function SavePath(name: string): string {
    "saves/" + name + ".TAMA"
  }

  /** The path under which the listing of the saves directory names a save,
      and under which `select_save` opens it. */
  function ListedPath(name: string): string {
    "./saves/" + name + ".TAMA"
  }

  /** Python's `path[8:-5]`: the slice between the first eight and the last
      five characters, empty when those overlap. */
  function NameOfSaveFile(path: string): (name: string)
    ensures |path| > 13 ==> name == path[8..|path| - 5]
    ensures |path| <= 13 ==> name == ""
  {
    if |path| > 13 then path[8..|path| - 5] else ""
  }

  /** The name cut out of a listed save file is the pet's name, and opening
      that name again reaches the same file. */
  lemma NameOfListedSave(name: string)
    ensures NameOfSaveFile(ListedPath(name)) == name
    ensures ListedPath(NameOfSaveFile(ListedPath(name))) == ListedPath(name)
  {
    var path := ListedPath(name);
    if |path| > 13 {
      assert path[8..|path| - 5] == name;
    }
  }

  /** The path `save_current_game` writes, relative to the working
      directory, is the listed path of the same name, and the slice of that
      path gives the name back. Whether the listing shows the file at all is
      up to `glob`, which this model does not capture. */
  lemma SavedFileIsListed(name: string)
    ensures ListedPath(name) == "./" + SavePath(name)
    ensures NameOfSaveFile("./" + SavePath(name)) == name
  {
    assert "./" + SavePath(name) == ListedPath(name);
    NameOfListedSave(name);
  }
}
