/**
 * The configuration both drivers hand to the simulator: the chosen section of
 * the configuration file merged with the `normal_rcv` section.
 */
module PaddingConfig {
  import opened Results

  /** One section of the configuration file: option name to raw value. */
  type Section = map<string, string>

  /** `conf_parser._sections`: section name to section. */
  type Sections = map<string, Section>

  /** The section that is both the default choice and the merged-in one. */
  const NormalRcv: string := "normal_rcv"

  /** `conf_parser._sections[name]` raising `KeyError`. */
  datatype ConfigError = MissingSection(name: string)

  /**
   * `dict(section, **defaults)`: every key of either, with the value from
   * `defaults` where both have the key.
   */
  function Merge(section: Section, defaults: Section): (r: Section)
    ensures r.Keys == section.Keys + defaults.Keys
    ensures forall k :: k in defaults ==> r[k] == defaults[k]
    ensures forall k :: k in section && k !in defaults ==> r[k] == section[k]
  {
    section + defaults
  }

  /**
   * `parse_arguments`: look up the chosen section, then `normal_rcv`, and
   * merge them. Either lookup fails when the section is missing.
   */
  function LoadConfig(sections: Sections, chosen: string): (r: Result<Section, ConfigError>)
    ensures r.Err? <==> chosen !in sections || NormalRcv !in sections
    ensures r.Err? && chosen !in sections ==> r.error == MissingSection(chosen)
    ensures r.Err? && chosen in sections ==> r.error == MissingSection(NormalRcv)
    ensures r.Ok? ==> r.value.Keys == sections[chosen].Keys + sections[NormalRcv].Keys
  {
    if chosen !in sections then Err(MissingSection(chosen))
    else if NormalRcv !in sections then Err(MissingSection(NormalRcv))
    else Ok(Merge(sections[chosen], sections[NormalRcv]))
  }

  /**
   * Only the options `normal_rcv` lacks come from the chosen section: every
   * other option has its `normal_rcv` value whatever section was chosen.
   */
  lemma NormalRcvWins(sections: Sections, chosen: string, k: string)
    requires chosen in sections && NormalRcv in sections
    ensures LoadConfig(sections, chosen).Ok?
    ensures k in sections[NormalRcv] ==> LoadConfig(sections, chosen).value[k] == sections[NormalRcv][k]
    ensures k in sections[chosen] && k !in sections[NormalRcv] ==> LoadConfig(sections, chosen).value[k] == sections[chosen][k]
  {
  }

  /**
   * A chosen section that sets no option `normal_rcv` lacks yields the
   * `normal_rcv` configuration itself.
   */
  lemma CoveredChoiceHasNoEffect(sections: Sections, chosen: string)
    requires chosen in sections && NormalRcv in sections
    requires sections[chosen].Keys <= sections[NormalRcv].Keys
    ensures LoadConfig(sections, chosen) == Ok(sections[NormalRcv])
  {
    var r := Merge(sections[chosen], sections[NormalRcv]);
    assert r.Keys == sections[NormalRcv].Keys;
    assert forall k :: k in r ==> r[k] == sections[NormalRcv][k];
    assert r == sections[NormalRcv];
  }

  /** Merging the defaults in a second time changes nothing. */
  lemma MergeIsIdempotent(section: Section, defaults: Section)
    ensures Merge(Merge(section, defaults), defaults) == Merge(section, defaults)
  {
  }

  /**
   * The merge the comment above it describes, "use default values if not
   * specified": the chosen section's options stand, and `normal_rcv` only
   * fills in the options the chosen section lacks.
   */
  function MergeIntended(section: Section, defaults: Section): (r: Section)
    ensures r.Keys == section.Keys + defaults.Keys
    ensures forall k :: k in section ==> r[k] == section[k]
    ensures forall k :: k !in section && k in defaults ==> r[k] == defaults[k]
  {
    defaults + section
  }

  /** `parse_arguments` with the intended merge: the same lookups and errors as `LoadConfig`. */
  function LoadConfigIntended(sections: Sections, chosen: string): (r: Result<Section, ConfigError>)
    ensures r.Err? <==> LoadConfig(sections, chosen).Err?
    ensures r.Err? ==> r == LoadConfig(sections, chosen)
    ensures r.Ok? ==> r.value.Keys == LoadConfig(sections, chosen).value.Keys
  {
    if chosen !in sections then Err(MissingSection(chosen))
    else if NormalRcv !in sections then Err(MissingSection(NormalRcv))
    else Ok(MergeIntended(sections[chosen], sections[NormalRcv]))
  }

  /**
   * With the intended merge every option the chosen section sets keeps its
   * value, and `normal_rcv` supplies the rest.
   */
  lemma ChosenOptionsWin(sections: Sections, chosen: string, k: string)
    requires chosen in sections && NormalRcv in sections
    ensures LoadConfigIntended(sections, chosen).Ok?
    ensures k in sections[chosen] ==> LoadConfigIntended(sections, chosen).value[k] == sections[chosen][k]
    ensures k !in sections[chosen] && k in sections[NormalRcv] ==> LoadConfigIntended(sections, chosen).value[k] == sections[NormalRcv][k]
  {
  }

  /** The two merges differ only on options both sections set. */
  lemma MergesAgreeWithoutOverlap(section: Section, defaults: Section)
    requires section.Keys !! defaults.Keys
    ensures Merge(section, defaults) == MergeIntended(section, defaults)
  {
    var a := Merge(section, defaults);
    var b := MergeIntended(section, defaults);
    assert a.Keys == b.Keys;
    assert forall k :: k in a ==> a[k] == b[k];
  }

  /**
   * A chosen section that sets an option `normal_rcv` also sets loses it in
   * the merge as written, and keeps it in the intended merge.
   */
  lemma MergeOverridesChoice(section: Section, defaults: Section, k: string)
    requires k in section && k in defaults
    ensures Merge(section, defaults)[k] == defaults[k]
    ensures MergeIntended(section, defaults)[k] == section[k]
  {
  }

  /** Two sections on which the two merges give different values for the same option. */
  lemma MergeOverridesChoiceWitness()
    ensures var section := map["option" := "chosen"];
            var defaults := map["option" := "default"];
            && Merge(section, defaults)["option"] == "default"
            && MergeIntended(section, defaults)["option"] == "chosen"
  {
  }
}
