/** AudioCategorySettings and its Global subclass, as one class whose `masterSink` hook is
    set only by the Global constructor; PlayerPrefs and AudioListener.volume are objects
    the settings are given. */
module CategorySettings {
  import opened Volumes
  import VS = VolumeSetting

  /** AudioListener.volume: the engine's master gain. */
  class MasterSink {
    var volume: real

    constructor (volume: real)
      ensures this.volume == volume
    {
      this.volume := volume;
    }
  }

  /** PlayerPrefs, restricted to the float entries the settings use. */
  class PlayerPrefs {
    var floats: map<string, real>

    constructor (floats: map<string, real>)
      ensures this.floats == floats
    {
      this.floats := floats;
    }
  }

  class AudioCategorySettings {
    const category: Category
    const name: string
    const playerPrefsKey: string
    /** Non-null exactly for a GlobalCategorySettings: the sink its overrides mirror into. */
    const masterSink: MasterSink?

    var volume: real
    var defaultVolume: real
    var hasChangedFromDefault: bool
    /** How many handlers are bound to this setting's OnVolumeChanged event. */
    var boundHandlers: nat

    /** The volume is clamped, the key is derived from the category, and only the Global
        category carries the master-sink override. */
    ghost predicate Valid()
      reads `volume, `defaultVolume, `hasChangedFromDefault
    {
      && VS.Valid(State())
      && playerPrefsKey == PrefsKey(category)
      && (masterSink != null ==> category == Volumes.Global)
    }

    function State(): VS.State
      reads `volume, `defaultVolume, `hasChangedFromDefault
    {
      VS.State(volume, defaultVolume, hasChangedFromDefault)
    }

    /** AudioCategorySettings(category): named after the lower-cased category, default 1. */
    constructor (category: Category)
      ensures this.category == category && masterSink == null
      ensures name == AsciiLower(CategoryText(category))
      ensures playerPrefsKey == PrefsKey(category)
      ensures State() == VS.Initial(1.0) && boundHandlers == 0
      ensures Valid()
    {
      this.category := category;
      this.name := AsciiLower(CategoryText(category));
      this.playerPrefsKey := PrefsKey(category);
      this.masterSink := null;
      this.volume := 1.0;
      this.defaultVolume := 1.0;
      this.hasChangedFromDefault := false;
      this.boundHandlers := 0;
    }

    /** AudioCategorySettings(category, name, defaultVolume = 1): the default is stored as
        given, the volume starts at 1 whatever the default. */
    constructor Named(category: Category, name: string, defaultVolume: real := 1.0)
      ensures this.category == category && this.name == name && masterSink == null
      ensures playerPrefsKey == PrefsKey(category)
      ensures State() == VS.Initial(defaultVolume) && boundHandlers == 0
      ensures Valid()
    {
      this.category := category;
      this.name := name;
      this.playerPrefsKey := PrefsKey(category);
      this.masterSink := null;
      this.volume := 1.0;
      this.defaultVolume := defaultVolume;
      this.hasChangedFromDefault := false;
      this.boundHandlers := 0;
    }

    /** GlobalCategorySettings(): the Global category through the base constructor. */
    constructor Global(sink: MasterSink)
      ensures category == Volumes.Global && name == "global" && masterSink == sink
      ensures playerPrefsKey == "Volume_Global"
      ensures State() == VS.Initial(1.0) && boundHandlers == 0
      ensures Valid()
    {
      this.category := Volumes.Global;
      this.name := AsciiLower(CategoryText(Volumes.Global));
      this.playerPrefsKey := PrefsKey(Volumes.Global);
      this.masterSink := sink;
      this.volume := 1.0;
      this.defaultVolume := 1.0;
      this.hasChangedFromDefault := false;
      this.boundHandlers := 0;
    }

    /** SetVolume(newVolume, ignoreDirty), including the Global override that mirrors the
        volume into the master sink after every call, no-op or not. */
    method SetVolume(newVolume: real, ignoreDirty: bool) returns (event: Option<VS.Change>)
      requires Valid()
      modifies this, masterSink
      ensures Valid() && boundHandlers == old(boundHandlers)
      ensures VS.Step(State(), event) == VS.SetVolume(old(State()), newVolume, ignoreDirty)
      ensures masterSink != null ==> masterSink.volume == volume
    {
      var clamped := Clamp01(newVolume);
      if Approx(clamped, volume) {
        event := None;
      } else {
        var prevVolume := volume;
        volume := clamped;
        if !ignoreDirty {
          hasChangedFromDefault := true;
        }
        event := Some(VS.Change(prevVolume, volume));
      }
      if masterSink != null {
        masterSink.volume := volume;
      }
    }

    /** SetDefaultVolume(newDefaultVolume): the (overridable) setter runs only while clean,
        so a dirty Global setting leaves the master sink alone. */
    method SetDefaultVolume(newDefaultVolume: real) returns (event: Option<VS.Change>)
      requires Valid()
      modifies this, masterSink
      ensures Valid() && boundHandlers == old(boundHandlers)
      ensures VS.Step(State(), event) == VS.SetDefaultVolume(old(State()), newDefaultVolume)
      ensures masterSink != null && !old(hasChangedFromDefault) ==> masterSink.volume == volume
      ensures masterSink != null && old(hasChangedFromDefault) ==> masterSink.volume == old(masterSink.volume)
    {
      defaultVolume := newDefaultVolume;
      if hasChangedFromDefault {
        event := None;
        return;
      }
      event := SetVolume(defaultVolume, true);
    }

    /** ReApplyVolume(): observably a no-op on the setting; the Global override still
        mirrors the volume into the master sink. */
    method ReApplyVolume() returns (event: Option<VS.Change>)
      requires Valid()
      modifies this, masterSink
      ensures Valid() && boundHandlers == old(boundHandlers)
      ensures State() == old(State()) && event == None
      ensures masterSink != null ==> masterSink.volume == volume
    {
      VS.ReApplyIsNoOp(State());
      event := SetVolume(volume, false);
    }

    /** Save(): writes the volume under "Volume_" + category only when dirty. */
    method Save(prefs: PlayerPrefs)
      requires Valid()
      modifies prefs
      ensures prefs.floats == VS.Save(State(), playerPrefsKey, old(prefs.floats))
    {
      if !hasChangedFromDefault {
        return;
      }
      prefs.floats := prefs.floats[playerPrefsKey := volume];
    }

    /** Load(): volume 1 without dirtying when nothing was saved, else the saved value through
        the dirtying setter; the Global override then mirrors the volume into the sink. */
    method Load(prefs: PlayerPrefs) returns (event: Option<VS.Change>)
      requires Valid()
      modifies this, masterSink
      ensures Valid() && boundHandlers == old(boundHandlers)
      ensures VS.Step(State(), event) == VS.Load(old(State()), playerPrefsKey, prefs.floats)
      ensures masterSink != null ==> masterSink.volume == volume
    {
      if playerPrefsKey !in prefs.floats {
        event := SetVolume(1.0, true);
      } else {
        var newVolume := prefs.floats[playerPrefsKey];
        event := SetVolume(newVolume, false);
      }
      if masterSink != null {
        masterSink.volume := volume;
      }
    }
  }
}
