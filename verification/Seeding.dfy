/** The voice table as the engine finds it: the catalogue written into the registry, over whatever an
    earlier table left there. */
module Seeding {
  import opened Wrappers
  import opened Chars
  import opened Seqs
  import opened Names
  import opened Tree
  import opened Registry
  import opened Catalog

  const ENGINE_ROOT := "Software\\Telia Promotor\\Infovox 230\\1.1"
  const MODES_ROOT := ENGINE_ROOT + "\\" + "Modes"

  const DIR_NAMES: seq<string> := ["LanguageDir", "LanguageDirectory", "LexiconDir", "LicenseDir", "LogStartupDir",
                                   "Path"]

  datatype Setting = Setting(name: string, text: string)

  /** One value a mode may have; `always` when it is written even if it is empty. */
  datatype Field = Field(name: string, text: string, always: bool)

  const FIELD_NAMES: seq<string> :=
    ["ModeGUID", "LanguageID", "LanguageFile", "LibraryFile", "PhSymFile", "SpeakerName", "SpeakerStyle", "Gender",
     "Age", "Pitch", "Dynamic", "Aspiration", "FormantNo"]

  function FieldsOf(v: Voice): seq<Field> {
    [Field(FIELD_NAMES[0], v.modeGuid, true), Field(FIELD_NAMES[1], v.languageId, true),
     Field(FIELD_NAMES[2], v.languageFile, true), Field(FIELD_NAMES[3], v.libraryFile, false),
     Field(FIELD_NAMES[4], v.phsymFile, false), Field(FIELD_NAMES[5], v.speakerName, true),
     Field(FIELD_NAMES[6], v.speakerStyle, false), Field(FIELD_NAMES[7], v.gender, true),
     Field(FIELD_NAMES[8], v.age, true), Field(FIELD_NAMES[9], v.pitch, true), Field(FIELD_NAMES[10], v.dynamic, true),
     Field(FIELD_NAMES[11], v.aspiration, true), Field(FIELD_NAMES[12], v.formantNo, true)]
  }

  predicate IsWritten(f: Field) { f.always || f.text != "" }

  function SettingOf(f: Field): Setting { Setting(f.name, f.text) }

  function Written(fields: seq<Field>): seq<Setting> {
    if fields == [] then []
    else (if IsWritten(fields[0]) then [SettingOf(fields[0])] else []) + Written(fields[1..])
  }

  /** What a mode's key holds. A data file is only named when there is a name. */
  function SettingsOf(v: Voice): seq<Setting> { Written(FieldsOf(v)) }

  /** Settings written one after the other over what a key holds. */
  function Over(values: map<string, Value>, settings: seq<Setting>): map<string, Value>
    decreases |settings|
  {
    if settings == [] then values
    else Over(values[Lowered(settings[0].name) := Sz(settings[0].text)], settings[1..])
  }

  /** ... and one after the other at a path. */
  function WroteAll(view: Contents, path: string, settings: seq<Setting>): (r: Contents)
    requires Path(ROOT, []) in view
    ensures Path(ROOT, []) in r
    decreases |settings|
  {
    if settings == [] then view
    else
      WroteKeeps(view, path, settings[0]);
      WroteAll(Wrote(view, Path(ROOT, []), path, settings[0].name, Sz(settings[0].text)), path, settings[1..])
  }

  lemma WroteKeeps(view: Contents, path: string, s: Setting)
    requires Path(ROOT, []) in view
    ensures Path(ROOT, []) in Wrote(view, Path(ROOT, []), path, s.name, Sz(s.text))
  {
    GrownIs(view, Path(ROOT, []), Parts(path));
  }

  function ModeKeyOf(v: Voice): Path { Path(ROOT, Parts(MODES_ROOT) + [Lowered(v.modeKey)]) }

  const MODES: Path := Path(ROOT, Parts(MODES_ROOT))

  /** The table: the keys under Modes are one for each voice, holding that voice's settings and nothing
      else. */
  ghost predicate IsTable(view: Contents, voices: seq<Voice>) {
    && (forall p <- view :: p.Under(MODES) ==> p == MODES || exists i :: 0 <= i < |voices| && p == ModeKeyOf(voices[i]))
    && (forall i | 0 <= i < |voices| ::
          ModeKeyOf(voices[i]) in view && view[ModeKeyOf(voices[i])] == Over(map[], SettingsOf(voices[i])))
  }

  /** What is not under Modes is as it was, and nothing is there that was not. */
  ghost predicate Elsewhere(before: Contents, after: Contents) {
    && (forall p <- before | !p.Under(MODES) :: p in after && after[p] == before[p])
    && (forall p <- after | !p.Under(MODES) :: p in before)
  }

  lemma HasRoot(r: VirtualRegistry)
    requires r.Valid()
    ensures Path(ROOT, []) in r.Keys()
  {
  }

  method WriteMode(r: VirtualRegistry, v: Voice)
    requires r.Valid()
    modifies r
    ensures r.Valid() && r.Open() == old(r.Open())
    ensures Path(ROOT, []) in old(r.Keys())
    ensures r.Keys() == WroteAll(old(r.Keys()), MODES_ROOT + "\\" + v.modeKey, SettingsOf(v))
  {
    hide Wrote, WroteAll, SettingsOf;
    var path := MODES_ROOT + "\\" + v.modeKey;
    var settings := SettingsOf(v);
    HasRoot(r);
    WroteNothing(r.Keys(), path);
    assert settings[0..] == settings && settings[|settings|..] == [];
    for i := 0 to |settings|
      invariant r.Valid() && r.Open() == old(r.Open()) && Path(ROOT, []) in r.Keys()
      invariant WroteAll(r.Keys(), path, settings[i..]) == WroteAll(old(r.Keys()), path, settings)
    {
      WroteFirst(r.Keys(), path, settings[i..]);
      r.SetString(path, settings[i].name, settings[i].text);
      assert settings[i..][1..] == settings[i + 1..];
    }
    WroteNothing(r.Keys(), path);
  }

  lemma WroteNothing(view: Contents, path: string)
    requires Path(ROOT, []) in view
    ensures WroteAll(view, path, []) == view
  {
  }

  lemma WroteFirst(view: Contents, path: string, settings: seq<Setting>)
    requires Path(ROOT, []) in view && settings != []
    ensures var w := Wrote(view, Path(ROOT, []), path, settings[0].name, Sz(settings[0].text));
            Path(ROOT, []) in w && WroteAll(view, path, settings) == WroteAll(w, path, settings[1..])
  {
    WroteKeeps(view, path, settings[0]);
  }

  // ------------------------------------------------------------------------------------------
  // What writing a key's settings comes to
  // ------------------------------------------------------------------------------------------

  /** Every key on the way from `p` is there. */
  ghost predicate Paved(view: Contents, p: Path, parts: seq<string>) {
    forall k | 0 < k <= |parts| :: p.Then(parts[..k]) in view
  }

  lemma {:induction false} GrownIsPaved(view: Contents, p: Path, parts: seq<string>)
    ensures Paved(Grown(view, p, parts), p, parts)
    decreases |parts|
  {
    if parts != [] {
      var q := p.Down(parts[0]);
      var w := if q in view then view else view[q := map[]];
      GrownIsPaved(w, q, parts[1..]);
      GrownIs(w, q, parts[1..]);
      forall k | 0 < k <= |parts| ensures p.Then(parts[..k]) in Grown(view, p, parts) {
        assert parts[..k] == [parts[0]] + parts[1..][..k - 1];
        ThenDown(p, parts[0], parts[1..][..k - 1]);
        if k == 1 {
          ThenNothing(q);
        }
      }
    }
  }

  lemma {:induction false} PavedDoesNotGrow(view: Contents, p: Path, parts: seq<string>)
    requires Paved(view, p, parts)
    ensures Grown(view, p, parts) == view
    decreases |parts|
  {
    if parts != [] {
      var q := p.Down(parts[0]);
      assert parts[..1] == [parts[0]];
      forall k | 0 < k <= |parts[1..]| ensures q.Then(parts[1..][..k]) in view {
        assert parts[..k + 1] == [parts[0]] + parts[1..][..k];
        ThenDown(p, parts[0], parts[1..][..k]);
      }
      PavedDoesNotGrow(view, q, parts[1..]);
    }
  }

  lemma {:induction false} PavedWrites(view: Contents, path: string, settings: seq<Setting>)
    requires Path(ROOT, []) in view && Path(ROOT, Parts(path)) in view && Paved(view, Path(ROOT, []), Parts(path))
    ensures WroteAll(view, path, settings)
              == view[Path(ROOT, Parts(path)) := Over(view[Path(ROOT, Parts(path))], settings)]
    decreases |settings|
  {
    hide Parts, Lowered;
    var p := Path(ROOT, Parts(path));
    if settings == [] {
      WroteNothing(view, path);
    } else {
      PavedDoesNotGrow(view, Path(ROOT, []), Parts(path));
      ThenIs(ROOT, Parts(path));
      var w := view[p := view[p][Lowered(settings[0].name) := Sz(settings[0].text)]];
      WroteFirst(view, path, settings);
      PavedWrites(w, path, settings[1..]);
      assert w[p := Over(w[p], settings[1..])] == view[p := Over(view[p], settings)];
    }
  }

  lemma WroteAllIs(view: Contents, path: string, settings: seq<Setting>)
    requires Path(ROOT, []) in view && settings != []
    ensures var p, grown := Path(ROOT, Parts(path)), Grown(view, Path(ROOT, []), Parts(path));
            p in grown && WroteAll(view, path, settings) == grown[p := Over(grown[p], settings)]
  {
    hide Parts, Lowered, Grown;
    var p, grown := Path(ROOT, Parts(path)), Grown(view, Path(ROOT, []), Parts(path));
    GrownHas(view, Path(ROOT, []), Parts(path));
    ThenIs(ROOT, Parts(path));
    GrownIs(view, Path(ROOT, []), Parts(path));
    GrownIsPaved(view, Path(ROOT, []), Parts(path));
    WroteFirst(view, path, settings);
    var w := grown[p := grown[p][Lowered(settings[0].name) := Sz(settings[0].text)]];
    PavedWrites(w, path, settings[1..]);
    assert w[p := Over(w[p], settings[1..])] == grown[p := Over(grown[p], settings)];
  }

  ghost predicate Apart(settings: seq<Setting>) {
    forall i, j | 0 <= i < j < |settings| :: Lowered(settings[i].name) != Lowered(settings[j].name)
  }

  /** Where no name comes twice, every setting is read back, and nothing else is there. */
  lemma {:induction false} OverReads(values: map<string, Value>, settings: seq<Setting>)
    requires Apart(settings)
    ensures var r := Over(values, settings);
            && (forall i | 0 <= i < |settings| ::
                  Lowered(settings[i].name) in r && r[Lowered(settings[i].name)] == Sz(settings[i].text))
            && (forall n <- r ::
                  || (n in values && r[n] == values[n])
                  || exists i :: 0 <= i < |settings| && n == Lowered(settings[i].name))
            && (forall n <- values :: n in r)
            && (forall n <- values | forall i | 0 <= i < |settings| :: n != Lowered(settings[i].name) ::
                  r[n] == values[n])
    decreases |settings|
  {
    hide Lowered;
    if settings != [] {
      var first := Lowered(settings[0].name);
      assert forall i | 0 <= i < |settings| - 1 :: settings[1..][i] == settings[i + 1];
      OverReads(values[first := Sz(settings[0].text)], settings[1..]);
      assert first == Lowered(settings[0].name);
    }
  }

  lemma FieldNamesApart(i: nat, j: nat)
    requires i < j < |FIELD_NAMES|
    ensures Lowered(FIELD_NAMES[i]) != Lowered(FIELD_NAMES[j])
  {
    var a, b := FIELD_NAMES[i], FIELD_NAMES[j];
    LoweredIs(a);
    LoweredIs(b);
    assert |a| != |b| || Lower(a[0]) != Lower(b[0]);
  }

  ghost predicate FieldsApart(fields: seq<Field>) {
    forall i, j | 0 <= i < j < |fields| :: Lowered(fields[i].name) != Lowered(fields[j].name)
  }

  lemma FieldsOfApart(v: Voice)
    ensures FieldsApart(FieldsOf(v))
  {
    hide Lowered;
    var fields := FieldsOf(v);
    forall i, j | 0 <= i < j < |fields| ensures Lowered(fields[i].name) != Lowered(fields[j].name) {
      NameAt(v, i);
      NameAt(v, j);
      FieldNamesApart(i, j);
    }
  }

  lemma NameAt(v: Voice, i: nat)
    requires i < |FieldsOf(v)|
    ensures i < |FIELD_NAMES| && FieldsOf(v)[i].name == FIELD_NAMES[i]
  {
  }

  lemma {:induction false} WrittenAre(fields: seq<Field>)
    ensures forall s <- Written(fields) ::
              exists i :: 0 <= i < |fields| && IsWritten(fields[i]) && s == SettingOf(fields[i])
  {
    hide IsWritten, SettingOf;
    if fields != [] {
      WrittenAre(fields[1..]);
      forall s <- Written(fields)
        ensures exists i :: 0 <= i < |fields| && IsWritten(fields[i]) && s == SettingOf(fields[i])
      {
        if s in Written(fields[1..]) {
          var i :| 0 <= i < |fields[1..]| && IsWritten(fields[1..][i]) && s == SettingOf(fields[1..][i]);
          assert fields[i + 1] == fields[1..][i];
        } else {
          assert IsWritten(fields[0]) && s == SettingOf(fields[0]);
        }
      }
    }
  }

  lemma {:induction false} WrittenHas(fields: seq<Field>, i: nat)
    requires i < |fields| && IsWritten(fields[i])
    ensures SettingOf(fields[i]) in Written(fields)
  {
    hide IsWritten, SettingOf;
    if i > 0 {
      WrittenHas(fields[1..], i - 1);
    }
  }

  lemma {:induction false} WrittenApart(fields: seq<Field>)
    requires FieldsApart(fields)
    ensures Apart(Written(fields))
  {
    hide Lowered, IsWritten;
    if fields != [] {
      assert forall i | 0 <= i < |fields| - 1 :: fields[1..][i] == fields[i + 1];
      WrittenApart(fields[1..]);
      WrittenAre(fields[1..]);
      var rest := Written(fields[1..]);
      forall s <- rest ensures Lowered(s.name) != Lowered(fields[0].name) {
        var i :| 0 <= i < |fields[1..]| && s == SettingOf(fields[1..][i]);
        var f := fields[i + 1];
        assert f == fields[1..][i];
        assert s == SettingOf(f);
        assert s.name == f.name;
      }
    }
  }

  /** What the engine finds under a voice's key: every value of the voice that is written, under its own name
      in any case, and no value under a name that is not. */
  lemma ModeHolds(v: Voice, i: nat)
    requires i < |FieldsOf(v)|
    ensures var f := FieldsOf(v)[i]; var held := Over(map[], SettingsOf(v));
            && (Lowered(f.name) in held <==> IsWritten(f))
            && (IsWritten(f) ==> held[Lowered(f.name)] == Sz(f.text))
  {
    hide Lowered, FieldsOf, Written, Over;
    var fields, f := FieldsOf(v), FieldsOf(v)[i];
    FieldsOfApart(v);
    WrittenApart(fields);
    WrittenAre(fields);
    OverReads(map[], SettingsOf(v));
    if IsWritten(f) {
      WrittenHas(fields, i);
    }
    if Lowered(f.name) in Over(map[], SettingsOf(v)) {
      var k :| 0 <= k < |SettingsOf(v)| && Lowered(f.name) == Lowered(SettingsOf(v)[k].name);
      assert SettingsOf(v)[k] in Written(fields);
      var j :| 0 <= j < |fields| && IsWritten(fields[j]) && SettingsOf(v)[k] == SettingOf(fields[j]);
      assert j == i;
    }
  }

  /** A string value is found under a name: the text, and the NUL it ends in. */
  ghost predicate Reads(view: Contents, key: Path, name: string, text: string) {
    Reading(view, key, name) == Option.Some(Value(1, text + [0 as char]))
  }

  ghost predicate ReadsIfAny(view: Contents, key: Path, name: string, text: string) {
    if text == "" then Reading(view, key, name) == Option.None else Reads(view, key, name, text)
  }

  /** Which of a voice's values stands under which name, in the place the engine looks for it. */
  ghost predicate ReadsAs(view: Contents, v: Voice) {
    var key := Path(0, Parts("Software\\Telia Promotor\\Infovox 230\\1.1\\Modes\\" + v.modeKey));
    && Reads(view, key, "ModeGUID", v.modeGuid) && Reads(view, key, "LanguageID", v.languageId)
    && Reads(view, key, "LanguageFile", v.languageFile) && ReadsIfAny(view, key, "LibraryFile", v.libraryFile)
    && ReadsIfAny(view, key, "PhSymFile", v.phsymFile) && Reads(view, key, "SpeakerName", v.speakerName)
    && ReadsIfAny(view, key, "SpeakerStyle", v.speakerStyle) && Reads(view, key, "Gender", v.gender)
    && Reads(view, key, "Age", v.age) && Reads(view, key, "Pitch", v.pitch)
    && Reads(view, key, "Dynamic", v.dynamic) && Reads(view, key, "Aspiration", v.aspiration)
    && Reads(view, key, "FormantNo", v.formantNo)
  }

  lemma HeldReads(view: Contents, key: Path, v: Voice, i: nat)
    requires key in view && view[key] == Over(map[], SettingsOf(v)) && i < |FieldsOf(v)|
    ensures var f := FieldsOf(v)[i];
            if f.always then Reads(view, key, f.name, f.text) else ReadsIfAny(view, key, f.name, f.text)
  {
    hide Lowered, FieldsOf, SettingsOf, Over;
    ModeHolds(v, i);
  }

  /** So in a table every voice is read as it is. */
  lemma TableReads(view: Contents, voices: seq<Voice>, i: nat)
    requires IsTable(view, voices) && i < |voices| && IsKeyName(voices[i].modeKey)
    ensures ReadsAs(view, voices[i])
  {
    hide Lowered, SettingsOf, Over, Parts, Reads, ReadsIfAny;
    var v := voices[i];
    var key := ModeKeyOf(v);
    ModePath(v);
    ModesAre(v);
    assert key in view && view[key] == Over(map[], SettingsOf(v));
    forall k: nat | k < |FieldsOf(v)|
      ensures var f := FieldsOf(v)[k];
              if f.always then Reads(view, key, f.name, f.text) else ReadsIfAny(view, key, f.name, f.text)
    {
      HeldReads(view, key, v, k);
    }
    FieldsRead(view, key, v);
  }

  lemma ModesAre(v: Voice)
    ensures "Software\\Telia Promotor\\Infovox 230\\1.1\\Modes\\" + v.modeKey == MODES_ROOT + "\\" + v.modeKey
  {
  }

  lemma FieldsRead(view: Contents, key: Path, v: Voice)
    requires key == Path(0, Parts("Software\\Telia Promotor\\Infovox 230\\1.1\\Modes\\" + v.modeKey))
    requires forall k: nat | k < |FieldsOf(v)| ::
               var f := FieldsOf(v)[k];
               if f.always then Reads(view, key, f.name, f.text) else ReadsIfAny(view, key, f.name, f.text)
    ensures ReadsAs(view, v)
  {
    hide Reads, ReadsIfAny, Parts;
    var fs := FieldsOf(v);
    assert |fs| == 13;
    assert fs[0].always && fs[1].always && fs[2].always && !fs[3].always && !fs[4].always && fs[5].always;
    assert !fs[6].always && fs[7].always && fs[8].always && fs[9].always && fs[10].always && fs[11].always;
    assert fs[12].always;
  }

  /** The keys of a section are the names of the values the engine reads. */
  predicate IsSetting(name: string) {
    name in {"LanguageID", "LanguageFile", "LibraryFile", "PhSymFile", "SpeakerName", "SpeakerStyle", "Gender", "Age",
             "Pitch", "Dynamic", "Aspiration", "FormantNo"}
  }

  /** From the user's section to the engine: what the section gives under a name is what the engine finds
      under that very name, and a name it does not give is found as it was. */
  lemma SectionIsRead(v: Voice, values: map<string, string>, i: nat)
    requires i < 13 && IsSetting(FIELD_NAMES[i])
    ensures var name := FIELD_NAMES[i];
            var held, before := Over(map[], SettingsOf(WithValues(v, values))), Over(map[], SettingsOf(v));
            if name in values then
              && (values[name] != "" ==> Holds(held, name, values[name]))
              && (Lowered(name) in held ==> Holds(held, name, values[name]))
            else
              && (Lowered(name) in held <==> Lowered(name) in before)
              && (Lowered(name) in held ==> held[Lowered(name)] == before[Lowered(name)])
  {
    hide Lowered, Over, SettingsOf, FieldsOf, WithValues;
    var w := WithValues(v, values);
    FieldFromSection(v, values, i);
    NameAt(v, i);
    NameAt(w, i);
    ModeHolds(v, i);
    ModeHolds(w, i);
  }

  lemma FieldFromSection(v: Voice, values: map<string, string>, i: nat)
    requires i < 13 && IsSetting(FIELD_NAMES[i])
    ensures i < |FieldsOf(v)| && i < |FieldsOf(WithValues(v, values))|
    ensures var f, g := FieldsOf(v)[i], FieldsOf(WithValues(v, values))[i];
            && f.always == g.always && g.text == if FIELD_NAMES[i] in values then values[FIELD_NAMES[i]] else f.text
  {
    hide Lcid;
    assert FIELD_NAMES[0] == "ModeGUID" && |"ModeGUID"| == 8;
    NotASetting();
  }

  lemma NotASetting()
    ensures !IsSetting("ModeGUID")
  {
    var name := "ModeGUID";
    assert name[0] == 'M' && "LanguageID"[0] == 'L' && "LanguageFile"[0] == 'L' && "LibraryFile"[0] == 'L';
    assert "PhSymFile"[0] == 'P' && "SpeakerName"[0] == 'S' && "SpeakerStyle"[0] == 'S' && "Gender"[0] == 'G';
    assert "Age"[0] == 'A' && "Pitch"[0] == 'P' && "Dynamic"[0] == 'D' && "Aspiration"[0] == 'A';
    assert "FormantNo"[0] == 'F';
  }

  /** And a new voice's are its template's, but for the name. */
  lemma CopyIsRead(template: Voice, name: string, i: nat)
    requires i < 13 && i != 5
    ensures i < |FieldsOf(template)| && FieldsOf(Copied(template, name))[i] == FieldsOf(template)[i]
  {
  }

  // ------------------------------------------------------------------------------------------
  // One more mode
  // ------------------------------------------------------------------------------------------

  lemma ModePath(v: Voice)
    requires IsKeyName(v.modeKey)
    ensures Path(ROOT, Parts(MODES_ROOT + "\\" + v.modeKey)) == ModeKeyOf(v)
    ensures ModeKeyOf(v).Under(MODES) && ModeKeyOf(v) == MODES.Down(Lowered(v.modeKey))
  {
    hide Parts, Lowered;
    PartsJoin(MODES_ROOT, v.modeKey);
    PartsOfName(v.modeKey);
  }

  lemma BetweenModes(p: Path, v: Voice)
    requires p.Under(MODES) && ModeKeyOf(v).Under(p)
    ensures p == MODES || p == ModeKeyOf(v)
  {
  }

  /** Above the modes everything is there that a mode's path needs. */
  lemma AboveModes(view: Contents, p: Path, v: Voice)
    requires Paved(view, Path(ROOT, []), Parts(ENGINE_ROOT)) && p.Under(Path(ROOT, [])) && p != Path(ROOT, [])
    requires ModeKeyOf(v).Under(p) && !p.Under(MODES)
    ensures p in view
  {
    hide Parts, Lowered;
    PartsJoin(ENGINE_ROOT, "Modes");
    PartsOfName("Modes");
    var parts, k := Parts(ENGINE_ROOT), |p.parts|;
    assert Parts(MODES_ROOT) == parts + [Lowered("Modes")];
    assert ModeKeyOf(v).parts == parts + [Lowered("Modes")] + [Lowered(v.modeKey)];
    assert k <= |parts|;
    assert p.parts == parts[..k];
    ThenIs(ROOT, parts[..k]);
  }

  lemma StaysPaved(before: Contents, after: Contents)
    requires Paved(before, Path(ROOT, []), Parts(ENGINE_ROOT)) && Elsewhere(before, after)
    ensures Paved(after, Path(ROOT, []), Parts(ENGINE_ROOT))
  {
    hide Parts, Lowered;
    PartsJoin(ENGINE_ROOT, "Modes");
    PartsOfName("Modes");
    var parts := Parts(ENGINE_ROOT);
    forall k | 0 < k <= |parts| ensures Path(ROOT, []).Then(parts[..k]) in after {
      ThenIs(ROOT, parts[..k]);
      assert |MODES.parts| == |parts| + 1;
    }
  }

  /** What writing a mode does to the keys, when it is not there yet. */
  lemma ModeWritten(view: Contents, voices: seq<Voice>, v: Voice)
    requires Path(ROOT, []) in view && IsTable(view, voices) && IsKeyName(v.modeKey)
    requires forall i | 0 <= i < |voices| :: !SameName(voices[i].modeKey, v.modeKey)
    ensures var w, key := WroteAll(view, MODES_ROOT + "\\" + v.modeKey, SettingsOf(v)), ModeKeyOf(v);
            && key !in view && key in w && w[key] == Over(map[], SettingsOf(v))
            && (forall p <- view :: p in w && w[p] == view[p])
            && (forall p <- w :: p in view || (p.Under(Path(ROOT, [])) && key.Under(p) && p != Path(ROOT, [])))
  {
    hide Parts, Lowered, Grown, Over, SettingsOf, WroteAll, IsTable;
    var path := MODES_ROOT + "\\" + v.modeKey;
    ModePath(v);
    SomeSettings(v);
    WroteAllIs(view, path, SettingsOf(v));
    GrownIs(view, Path(ROOT, []), Parts(path));
    ThenIs(ROOT, Parts(path));
    KeyIsNew(view, voices, v);
  }

  lemma AnotherMode(view: Contents, voices: seq<Voice>, v: Voice)
    requires Path(ROOT, []) in view && IsTable(view, voices) && IsKeyName(v.modeKey)
    requires forall i | 0 <= i < |voices| :: IsKeyName(voices[i].modeKey) && !SameName(voices[i].modeKey, v.modeKey)
    requires Paved(view, Path(ROOT, []), Parts(ENGINE_ROOT))
    ensures var w := WroteAll(view, MODES_ROOT + "\\" + v.modeKey, SettingsOf(v));
            IsTable(w, voices + [v]) && Elsewhere(view, w)
  {
    hide Parts, Lowered, Over, SettingsOf, WroteAll, Paved, IsKeyName, SameName;
    var key, w := ModeKeyOf(v), WroteAll(view, MODES_ROOT + "\\" + v.modeKey, SettingsOf(v));
    ModePath(v);
    ModeWritten(view, voices, v);
    NothingNew(view, w, v);
    forall p <- w | p.Under(MODES)
      ensures p == MODES || exists i :: 0 <= i < |voices + [v]| && p == ModeKeyOf((voices + [v])[i])
    {
      if p in view {
        if p != MODES {
          var i :| 0 <= i < |voices| && p == ModeKeyOf(voices[i]);
          assert (voices + [v])[i] == voices[i];
        }
      } else {
        BetweenModes(p, v);
        assert (voices + [v])[|voices|] == v;
      }
    }
    forall i | 0 <= i < |voices + [v]|
      ensures ModeKeyOf((voices + [v])[i]) in w
      ensures w[ModeKeyOf((voices + [v])[i])] == Over(map[], SettingsOf((voices + [v])[i]))
    {
      if i < |voices| {
        assert (voices + [v])[i] == voices[i] && ModeKeyOf(voices[i]) in view;
      }
    }
  }

  lemma NothingNew(view: Contents, w: Contents, v: Voice)
    requires IsKeyName(v.modeKey) && Paved(view, Path(ROOT, []), Parts(ENGINE_ROOT))
    requires forall p <- view :: p in w && w[p] == view[p]
    requires forall p <- w :: p in view || (p.Under(Path(ROOT, [])) && ModeKeyOf(v).Under(p) && p != Path(ROOT, []))
    ensures Elsewhere(view, w)
  {
    hide Parts, Paved, Path.Under, ModeKeyOf, IsKeyName;
    forall p <- w | !p.Under(MODES) ensures p in view {
      if p !in view {
        AboveModes(view, p, v);
      }
    }
  }

  lemma SomeSettings(v: Voice)
    ensures SettingsOf(v) != []
  {
  }

  lemma KeyIsNew(view: Contents, voices: seq<Voice>, v: Voice)
    requires IsTable(view, voices) && IsKeyName(v.modeKey)
    requires forall i | 0 <= i < |voices| :: !SameName(voices[i].modeKey, v.modeKey)
    ensures ModeKeyOf(v) !in view
  {
    hide Parts, Lowered, Over, SettingsOf;
    ModePath(v);
    if ModeKeyOf(v) in view {
      var i :| 0 <= i < |voices| && ModeKeyOf(v) == ModeKeyOf(voices[i]);
      LastOf(Parts(MODES_ROOT), Lowered(v.modeKey), Lowered(voices[i].modeKey));
      assert false;
    }
  }

  lemma LastOf(front: seq<string>, a: string, b: string)
    ensures front + [a] == front + [b] ==> a == b
  {
    assert (front + [a])[|front|] == a && (front + [b])[|front|] == b;
  }

  // ------------------------------------------------------------------------------------------
  // The whole table
  // ------------------------------------------------------------------------------------------

  function DirSettings(engineDir: string, engineLog: bool): seq<Setting> {
    seq(|DIR_NAMES|, i requires 0 <= i < |DIR_NAMES| => Setting(DIR_NAMES[i], engineDir))
    + if engineLog then [Setting("LogStartup", "on")] else []
  }

  lemma LeafAfter(front: string, leaf: string)
    requires '\\' !in leaf
    ensures LeafOf(front + "\\" + leaf) == leaf
  {
    var path := front + "\\" + leaf;
    assert path[|front| + 1..] == leaf;
    LeafFromIs(path, |front| + 1);
  }

  lemma {:induction false} LeafFromIs(path: string, cut: nat)
    requires cut <= |path| && '\\' !in path[cut..] && (cut > 0 ==> path[cut - 1] == '\\')
    ensures LeafFrom(path) == cut
  {
  }

  /** After the old table has gone there is nothing under Modes. */
  lemma Cleared(r: VirtualRegistry, before: Contents)
    requires r.Valid()
    requires r.Keys() == if MODES in before then Removed(before, MODES) else before
    ensures IsTable(r.Keys(), []) && Elsewhere(before, r.Keys())
  {
    hide Parts;
    forall p <- r.Keys() ensures !p.Under(MODES) {
      KeyIs(r.nodes, r.shape, MODES);
      KeyIs(r.nodes, r.shape, p);
      if p.Under(MODES) {
        TopIsThere(r.nodes, r.shape, MODES, p);
      }
    }
  }

  /** Above every key are the keys it is under. */
  lemma {:induction false} TopIsThere(nodes: map<nat, Node>, s: Shape, top: Path, p: Path)
    requires IsTree(nodes, s) && p in s.at && p.Under(top)
    ensures top in s.at
    decreases |p.parts|
  {
    hide Rooted, Owning, Path.Under;
    UnderIsUpUnder(p, top);
    if p != top {
      assert HasOwner(nodes, s, p);
      TopIsThere(nodes, s, top, p.Up());
    }
  }

  lemma ElsewhereTwice(a: Contents, b: Contents, c: Contents)
    requires Elsewhere(a, b) && Elsewhere(b, c)
    ensures Elsewhere(a, c)
  {
  }

  /** Every name the engine has for its own directory leads there; its log is on if it is to be, and is
      otherwise left as it was, like every other value there. */
  ghost predicate DirsRead(before: Contents, after: Contents, engineDir: string, engineLog: bool) {
    var key := Path(0, Parts("Software\\Telia Promotor\\Infovox 230\\1.1"));
    && Reads(after, key, "LanguageDir", engineDir) && Reads(after, key, "LanguageDirectory", engineDir)
    && Reads(after, key, "LexiconDir", engineDir) && Reads(after, key, "LicenseDir", engineDir)
    && Reads(after, key, "LogStartupDir", engineDir) && Reads(after, key, "Path", engineDir)
    && (engineLog ==> Reads(after, key, "LogStartup", "on"))
    && (!engineLog ==> Reading(after, key, "LogStartup") == Reading(before, key, "LogStartup"))
  }

  lemma DirsApart(engineDir: string, engineLog: bool)
    ensures Apart(DirSettings(engineDir, engineLog))
  {
    var names := DIR_NAMES + ["LogStartup"];
    var settings := DirSettings(engineDir, engineLog);
    forall i, j | 0 <= i < j < |settings| ensures Lowered(settings[i].name) != Lowered(settings[j].name) {
      assert settings[i].name == names[i] && settings[j].name == names[j];
      DirNamesApart(i, j);
    }
  }

  lemma DirNamesApart(i: nat, j: nat)
    requires i < j < 7
    ensures var names := DIR_NAMES + ["LogStartup"]; Lowered(names[i]) != Lowered(names[j])
  {
    var names := DIR_NAMES + ["LogStartup"];
    var a, b := names[i], names[j];
    LoweredIs(a);
    LoweredIs(b);
    assert |a| != |b| || Lower(a[1]) != Lower(b[1]);
  }

  lemma DirsAreRead(view: Contents, after: Contents, engineDir: string, engineLog: bool)
    requires Path(ROOT, []) in view
    requires Elsewhere(WroteAll(view, ENGINE_ROOT, DirSettings(engineDir, engineLog)), after)
    ensures DirsRead(view, after, engineDir, engineLog)
  {
    hide *;
    var settings, p := DirSettings(engineDir, engineLog), Path(ROOT, Parts(ENGINE_ROOT));
    DirsThere(view, after, engineDir, engineLog);
    var values := if p in view then view[p] else map[];
    DirsHeld(values, engineDir, engineLog);
    DirsReadHeld(view, after, values, engineDir, engineLog);
  }

  lemma DirsThere(view: Contents, after: Contents, engineDir: string, engineLog: bool)
    requires Path(ROOT, []) in view
    requires Elsewhere(WroteAll(view, ENGINE_ROOT, DirSettings(engineDir, engineLog)), after)
    ensures var p := Path(ROOT, Parts(ENGINE_ROOT));
            && p in after
            && after[p] == Over(if p in view then view[p] else map[], DirSettings(engineDir, engineLog))
  {
    hide *;
    var settings, p := DirSettings(engineDir, engineLog), Path(ROOT, Parts(ENGINE_ROOT));
    SomeDirs(engineDir, engineLog);
    WroteAllIs(view, ENGINE_ROOT, settings);
    GrownAt(view, Parts(ENGINE_ROOT));
    EngineRootIsAbove();
    ElsewhereAt(WroteAll(view, ENGINE_ROOT, settings), after, p);
  }

  lemma GrownAt(view: Contents, parts: seq<string>)
    requires Path(ROOT, []) in view
    ensures var p, grown := Path(ROOT, parts), Grown(view, Path(ROOT, []), parts);
            p in grown && grown[p] == if p in view then view[p] else map[]
  {
    hide Grown;
    GrownHas(view, Path(ROOT, []), parts);
    GrownIs(view, Path(ROOT, []), parts);
    ThenIs(ROOT, parts);
  }

  lemma ElsewhereAt(before: Contents, after: Contents, p: Path)
    requires Elsewhere(before, after) && p in before && !p.Under(MODES)
    ensures p in after && after[p] == before[p]
  {
  }

  lemma DirsReadHeld(view: Contents, after: Contents, values: map<string, Value>, engineDir: string, engineLog: bool)
    requires var p := Path(ROOT, Parts(ENGINE_ROOT));
             && values == (if p in view then view[p] else map[])
             && p in after && after[p] == Over(values, DirSettings(engineDir, engineLog))
    requires HeldDirs(values, Over(values, DirSettings(engineDir, engineLog)), engineDir, engineLog)
    ensures DirsRead(view, after, engineDir, engineLog)
  {
    hide Parts, Over, Lowered, DirSettings;
  }

  ghost predicate Holds(values: map<string, Value>, name: string, text: string) {
    Lowered(name) in values && values[Lowered(name)] == Value(1, text + [0 as char])
  }

  ghost predicate HeldDirs(values: map<string, Value>, held: map<string, Value>, engineDir: string, engineLog: bool) {
    && Holds(held, "LanguageDir", engineDir) && Holds(held, "LanguageDirectory", engineDir)
    && Holds(held, "LexiconDir", engineDir) && Holds(held, "LicenseDir", engineDir)
    && Holds(held, "LogStartupDir", engineDir) && Holds(held, "Path", engineDir)
    && (engineLog ==> Holds(held, "LogStartup", "on"))
    && (!engineLog ==> (Lowered("LogStartup") in held <==> Lowered("LogStartup") in values))
    && (!engineLog && Lowered("LogStartup") in values ==>
          held[Lowered("LogStartup")] == values[Lowered("LogStartup")])
  }

  lemma DirsHeld(values: map<string, Value>, engineDir: string, engineLog: bool)
    ensures HeldDirs(values, Over(values, DirSettings(engineDir, engineLog)), engineDir, engineLog)
  {
    hide Over, Lowered;
    var settings := DirSettings(engineDir, engineLog);
    DirsApart(engineDir, engineLog);
    OverReads(values, settings);
    assert settings[0].name == "LanguageDir" && settings[1].name == "LanguageDirectory";
    assert settings[2].name == "LexiconDir" && settings[3].name == "LicenseDir";
    assert settings[4].name == "LogStartupDir" && settings[5].name == "Path";
    if engineLog {
      assert settings[6] == Setting("LogStartup", "on");
    } else {
      forall i | 0 <= i < |settings| ensures Lowered(settings[i].name) != Lowered("LogStartup") {
        assert (DIR_NAMES + ["LogStartup"])[i] == settings[i].name;
        DirNamesApart(i, 6);
      }
    }
  }

  lemma EngineRootIsAbove()
    ensures !Path(ROOT, Parts(ENGINE_ROOT)).Under(MODES)
  {
    hide Parts, Lowered;
    PartsJoin(ENGINE_ROOT, "Modes");
    PartsOfName("Modes");
  }

  method WriteDirs(r: VirtualRegistry, settings: seq<Setting>)
    requires r.Valid()
    modifies r
    ensures r.Valid() && r.Open() == old(r.Open())
    ensures Path(ROOT, []) in old(r.Keys()) && r.Keys() == WroteAll(old(r.Keys()), ENGINE_ROOT, settings)
  {
    hide Wrote, WroteAll;
    HasRoot(r);
    for i := 0 to |settings|
      invariant r.Valid() && r.Open() == old(r.Open()) && Path(ROOT, []) in r.Keys()
      invariant WroteAll(r.Keys(), ENGINE_ROOT, settings[i..]) == WroteAll(old(r.Keys()), ENGINE_ROOT, settings)
    {
      WroteFirst(r.Keys(), ENGINE_ROOT, settings[i..]);
      r.SetString(ENGINE_ROOT, settings[i].name, settings[i].text);
      assert settings[i..][1..] == settings[i + 1..];
    }
    WroteNothing(r.Keys(), ENGINE_ROOT);
  }

  method WriteNext(r: VirtualRegistry, v: Voice, ghost done: seq<Voice>, ghost before: Contents)
    requires r.Valid() && IsTable(r.Keys(), done) && Elsewhere(before, r.Keys()) && IsKeyName(v.modeKey)
    requires forall j | 0 <= j < |done| :: IsKeyName(done[j].modeKey) && !SameName(done[j].modeKey, v.modeKey)
    requires Paved(before, Path(ROOT, []), Parts(ENGINE_ROOT))
    modifies r
    ensures r.Valid() && IsTable(r.Keys(), done + [v]) && Elsewhere(before, r.Keys()) && r.Open() == old(r.Open())
  {
    hide Wrote, WroteAll, IsTable, Elsewhere, SettingsOf, IsKeyName, SameName, Paved, Parts;
    HasRoot(r);
    ghost var now := r.Keys();
    StaysPaved(before, now);
    AnotherMode(now, done, v);
    WriteMode(r, v);
    ElsewhereTwice(before, now, r.Keys());
  }

  method WriteModes(r: VirtualRegistry, voices: seq<Voice>)
    requires r.Valid() && IsTable(r.Keys(), []) && KeysApart(voices) && forall v <- voices :: IsKeyName(v.modeKey)
    requires Paved(r.Keys(), Path(ROOT, []), Parts(ENGINE_ROOT))
    modifies r
    ensures r.Valid() && IsTable(r.Keys(), voices) && Elsewhere(old(r.Keys()), r.Keys()) && r.Open() == old(r.Open())
  {
    hide IsTable, Elsewhere, IsKeyName, SameName, Paved, Parts;
    NothingElsewhere(r.Keys());
    for i := 0 to |voices|
      invariant r.Valid() && IsTable(r.Keys(), voices[..i]) && Elsewhere(old(r.Keys()), r.Keys())
      invariant r.Open() == old(r.Open())
    {
      NoneLike(voices, i);
      WriteNext(r, voices[i], voices[..i], old(r.Keys()));
      assert voices[..i + 1] == voices[..i] + [voices[i]];
    }
    assert voices[..|voices|] == voices;
  }

  lemma NothingElsewhere(view: Contents)
    ensures Elsewhere(view, view)
  {
  }

  /** seed_virtual_registry. Whatever was under Modes before, the keys there are now one for each voice with
      that voice's own settings; every other key is as writing the directories left it, and of the handles
      only those on the old table are gone. */
  method Seed(r: VirtualRegistry, engineDir: string, engineLog: bool, voices: seq<Voice>)
    requires r.Valid() && KeysApart(voices) && forall v <- voices :: IsKeyName(v.modeKey)
    modifies r
    ensures r.Valid() && IsTable(r.Keys(), voices) && forall v <- voices :: ReadsAs(r.Keys(), v)
    ensures Path(ROOT, []) in old(r.Keys()) && DirsRead(old(r.Keys()), r.Keys(), engineDir, engineLog)
    ensures Elsewhere(WroteAll(old(r.Keys()), ENGINE_ROOT, DirSettings(engineDir, engineLog)), r.Keys())
    ensures forall h <- old(r.Open()) | !old(r.Open())[h].Under(MODES) ::
              h in r.Open() && r.Open()[h] == old(r.Open())[h]
    ensures r.Open().Keys <= old(r.Open()).Keys
  {
    hide Wrote, WroteAll, IsTable, Elsewhere, Parts, SettingsOf, Over, DirSettings, ModeKeyOf, KeysApart, IsKeyName,
         Path.Under, Paved, ReadsAs, DirsRead;
    HasRoot(r);
    DirsArePaved(r.Keys(), engineDir, engineLog);
    WriteDirs(r, DirSettings(engineDir, engineLog));
    ghost var before := r.Keys();
    LeafAfter(ENGINE_ROOT, "Modes");
    r.RemoveKey(MODES_ROOT);
    Cleared(r, before);
    ghost var cleared := r.Keys();
    StaysPaved(before, cleared);
    WriteModes(r, voices);
    ElsewhereTwice(before, cleared, r.Keys());
    DirsAreRead(old(r.Keys()), r.Keys(), engineDir, engineLog);
    forall v <- voices ensures ReadsAs(r.Keys(), v) {
      var i :| 0 <= i < |voices| && voices[i] == v;
      TableReads(r.Keys(), voices, i);
    }
  }

  lemma DirsArePaved(view: Contents, engineDir: string, engineLog: bool)
    requires Path(ROOT, []) in view
    ensures Paved(WroteAll(view, ENGINE_ROOT, DirSettings(engineDir, engineLog)), Path(ROOT, []), Parts(ENGINE_ROOT))
  {
    hide Parts, Grown, Over, Paved;
    SomeDirs(engineDir, engineLog);
    WroteAllIs(view, ENGINE_ROOT, DirSettings(engineDir, engineLog));
    GrownIsPaved(view, Path(ROOT, []), Parts(ENGINE_ROOT));
    var p, grown := Path(ROOT, Parts(ENGINE_ROOT)), Grown(view, Path(ROOT, []), Parts(ENGINE_ROOT));
    PavedOver(grown, Path(ROOT, []), Parts(ENGINE_ROOT), p, Over(grown[p], DirSettings(engineDir, engineLog)));
  }

  lemma SomeDirs(engineDir: string, engineLog: bool)
    ensures DirSettings(engineDir, engineLog) != []
  {
  }

  lemma PavedOver(view: Contents, at: Path, parts: seq<string>, p: Path, values: map<string, Value>)
    requires Paved(view, at, parts)
    ensures Paved(view[p := values], at, parts)
  {
  }

  lemma NoneLike(voices: seq<Voice>, i: nat)
    requires i < |voices| && KeysApart(voices) && forall v <- voices :: IsKeyName(v.modeKey)
    ensures IsKeyName(voices[i].modeKey)
    ensures forall j | 0 <= j < i ::
              IsKeyName(voices[..i][j].modeKey) && !SameName(voices[..i][j].modeKey, voices[i].modeKey)
  {
  }

  /** A catalogue in order is one the registry can be seeded with. */
  lemma InOrderSeeds(voices: seq<Voice>)
    requires Catalog.InOrder(voices)
    ensures KeysApart(voices) && forall v <- voices :: IsKeyName(v.modeKey)
  {
  }
}
