/** The camera preset store kept in the Streamlit session: a dictionary from a
    preset's display name to its sensor width, sensor height, focal length and
    horizontal resolution. It is created and seeded once per session, read when
    a preset is selected, and written in place by the "Guardar" action. */
module PresetStore {

  /** One preset: sensor width `w`, sensor height `h` and focal length `f` in
      millimetres, and horizontal resolution `r` in pixels. */
  datatype CameraProfile = CameraProfile(w: real, h: real, f: real, r: int)

  /** Every numeric field strictly positive, so that the field-of-view and
      pixel formulas are defined for the preset. */
  predicate Usable(p: CameraProfile) {
    p.w > 0.0 && p.h > 0.0 && p.f > 0.0 && p.r > 0
  }

  predicate NoDuplicates(s: seq<string>) {
    forall i, j :: 0 <= i < j < |s| ==> s[i] != s[j]
  }

  /** The names of the built-in presets, in the order the seeding literal lists them. */
  function SeedNames(): (names: seq<string>)
    ensures |names| == 4 && NoDuplicates(names)
    ensures forall i :: 0 <= i < |names| ==> names[i] != ""
  {
    ["Arducam IMX519 (Stock)", "RPi HQ (Lente 6mm)", "GoPro Hero (Wide)", "Fisheye Genérica (1.8mm)"]
  }

  /** The dictionary a new session is seeded with. */
  function SeedPresets(): (m: map<string, CameraProfile>)
    ensures forall n :: n in m <==> n in SeedNames()
    ensures |m| == 4
    ensures forall n :: n in m ==> Usable(m[n])
  {
    var m := map[
      "Arducam IMX519 (Stock)"   := CameraProfile(5.6, 4.2, 4.28, 4656),
      "RPi HQ (Lente 6mm)"       := CameraProfile(6.17, 4.55, 6.0, 4056),
      "GoPro Hero (Wide)"        := CameraProfile(6.17, 4.55, 2.5, 4000),
      "Fisheye Genérica (1.8mm)" := CameraProfile(5.6, 4.2, 1.8, 2000)
    ];
    assert m.Keys == {SeedNames()[0], SeedNames()[1], SeedNames()[2], SeedNames()[3]};
    m
  }

  /** The part of the session state that holds the preset dictionary. */
  class Session {
    /** Whether the session already holds the dictionary. */
    var present: bool
    /** The dictionary's keys in insertion order, which is the order the preset selector lists them. */
    var names: seq<string>
    /** The dictionary itself. */
    var db: map<string, CameraProfile>

    ghost predicate Valid()
      reads this
    {
      && NoDuplicates(names)
      && (forall n :: n in db <==> n in names)
      && (!present ==> names == [])
    }

    /** A fresh session, before the script has run for the first time. */
    constructor ()
      ensures Valid() && !present && names == [] && db == map[]
    {
      present := false;
      names := [];
      db := map[];
    }

    /** Run at the top of every script execution: seeds the dictionary with the
        four built-in presets only when the session does not hold one yet; an
        existing dictionary, including presets saved earlier, is left alone. */
    method EnsureSeeded()
      requires Valid()
      modifies this
      ensures Valid() && present
      ensures old(present) ==> names == old(names) && db == old(db)
      ensures !old(present) ==> names == SeedNames() && db == SeedPresets()
    {
      if !present {
        present := true;
        names := SeedNames();
        db := SeedPresets();
      }
    }

    /** The choices offered by the preset selector. */
    method Names() returns (choices: seq<string>)
      requires Valid() && present
      ensures choices == names
      ensures NoDuplicates(choices)
      ensures forall n :: n in choices <==> n in db
    {
      choices := names;
    }

    /** The profile of the selected preset; the selector only offers stored names. */
    method Get(name: string) returns (p: CameraProfile)
      requires Valid() && present && name in db
      ensures p == db[name]
    {
      p := db[name];
    }

    /** The "Guardar" action: stores the edited values under `name`, creating
        the entry or overwriting an existing one, and does nothing when the name
        is empty. A new name is listed last; an overwritten one keeps its place. */
    method Save(name: string, w: real, h: real, f: real, r: int)
      requires Valid() && present
      modifies this
      ensures Valid() && present
      ensures db == if name == "" then old(db) else old(db)[name := CameraProfile(w, h, f, r)]
      ensures names == if name != "" && name !in old(db) then old(names) + [name] else old(names)
      ensures name != "" ==> name in db && db[name] == CameraProfile(w, h, f, r)
      ensures name == "" ==> db == old(db) && names == old(names)
      ensures forall n :: n != name ==> (n in db <==> n in old(db))
      ensures forall n :: n != name && n in old(db) ==> db[n] == old(db)[n]
    {
      if name != "" {
        if name !in db {
          names := names + [name];
        }
        db := db[name := CameraProfile(w, h, f, r)];
      }
    }
  }

  /** Two script runs of one session: the first seeds the store and saves the
      edited values under `name`; after the rerun the selector offers `name`
      exactly when it is non-empty, and selecting it yields the saved values. */
  method SaveThenReselect(name: string, w: real, h: real, f: real, r: int)
    returns (choices: seq<string>, selected: CameraProfile)
    ensures name == "" ==> choices == SeedNames()
    ensures name != "" && name in SeedNames() ==> choices == SeedNames()
    ensures name != "" && name !in SeedNames() ==> choices == SeedNames() + [name]
    ensures name != "" ==> selected == CameraProfile(w, h, f, r)
    ensures name == "" ==> selected == SeedPresets()[SeedNames()[0]]
  {
    var session := new Session();
    session.EnsureSeeded();
    session.Save(name, w, h, f, r);
    session.EnsureSeeded();
    choices := session.Names();
    var pick := if name != "" then name else choices[0];
    selected := session.Get(pick);
  }
}
