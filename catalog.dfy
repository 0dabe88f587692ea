/**
 * The effect catalog: an immutable table from effect id to a preset, i.e. a display
 * name, the ordered filter chain of the first engine pass and, for some effects, the
 * ordered filter chain of a second pass.
 */
module EffectCatalog {
  import opened Wrappers

  /** A filter option value: the table writes some as strings and some as numbers. */
  datatype OptionValue = Text(text: string) | Number(number: real)

  /** Options of one stage: either one opaque string or an ordered list of named values. */
  datatype FilterOptions =
    | Inline(text: string)
    | Named(entries: seq<(string, OptionValue)>)

  datatype FilterStage = FilterStage(filter: string, options: FilterOptions)

  datatype Preset = Preset(name: string, filters: seq<FilterStage>, secondPass: Option<seq<FilterStage>>)

  /** The rejection message of a lookup that finds no preset. */
  const InvalidEffect: string := "Invalid effect type"

  /** An `equalizer` stage; every equalizer of the table uses the `q` width type. */
  function Equalizer(frequency: string, width: string, gain: string): FilterStage {
    FilterStage("equalizer", Named([
      ("frequency", Text(frequency)),
      ("width_type", Text("q")),
      ("width", Text(width)),
      ("gain", Text(gain))]))
  }

  function Echo(inGain: real, outGain: real, delays: string, decays: string): FilterStage {
    FilterStage("aecho", Named([
      ("in_gain", Number(inGain)),
      ("out_gain", Number(outGain)),
      ("delays", Text(delays)),
      ("decays", Text(decays))]))
  }

  const EightD: Preset := Preset(
    "8D Audio",
    [ FilterStage("volume", Inline("1.8")),
      FilterStage("pan", Inline("stereo|c0=c0|c1=c0")),
      FilterStage("apulsator", Named([("hz", Text("0.08")), ("amount", Text("0.85"))])) ],
    Some([ Echo(0.8, 0.5, "50|100", "0.5|0.3") ]))

  const BassBoost: Preset := Preset(
    "Bass Boost",
    [ FilterStage("volume", Inline("1.5")),
      Equalizer("50", "2", "10"),
      Equalizer("100", "1.5", "10.4") ],
    None)

  const Club: Preset := Preset(
    "Club Effect",
    [ Equalizer("50", "2", "10"),
      Equalizer("100", "1.5", "10.4"),
      Equalizer("250", "1.5", "6"),
      Equalizer("2000", "1", "7.5"),
      Equalizer("8000", "1.5", "5"),
      FilterStage("volume", Inline("3.5")) ],
    Some([ FilterStage("volume", Inline("1.8")),
           Echo(0.6, 0.4, "50|150", "0.4|0.3"),
           Echo(0.3, 0.2, "200", "0.2"),
           FilterStage("acompressor", Inline("threshold=0.8:ratio=1.5:attack=10:release=100")) ]))

  /** The catalog itself. */
  const Effects: map<string, Preset> := map["8d" := EightD, "bass" := BassBoost, "club" := Club]

  /** The catalog lookup, on the table's own entries only. */
  function Lookup(effectType: string): (r: Result<Preset, string>)
    ensures r.Success? <==> effectType in Effects
    ensures r.Success? ==> r.value == Effects[effectType]
    ensures r.Failure? ==> r.error == InvalidEffect
  {
    if effectType in Effects then Success(Effects[effectType]) else Failure(InvalidEffect)
  }

  /** The names of a chain's stages, in chain order. */
  function FilterNames(chain: seq<FilterStage>): (names: seq<string>)
    ensures |names| == |chain|
    ensures forall i :: 0 <= i < |chain| ==> names[i] == chain[i].filter
  {
    if chain == [] then [] else [chain[0].filter] + FilterNames(chain[1..])
  }

  /** A preset the pipeline can run: a non-empty first chain, and a non-empty second chain if any. */
  predicate WellFormed(p: Preset) {
    && |p.filters| > 0
    && (p.secondPass.Some? ==> |p.secondPass.value| > 0)
    && (forall i :: 0 <= i < |p.filters| ==> p.filters[i].filter != "")
    && (p.secondPass.Some? ==> forall i :: 0 <= i < |p.secondPass.value| ==> p.secondPass.value[i].filter != "")
  }

  lemma CatalogContents()
    ensures Effects.Keys == {"8d", "bass", "club"}
    ensures forall id :: id in Effects ==> WellFormed(Effects[id])
    ensures Effects["bass"].secondPass.None?
    ensures Effects["8d"].secondPass.Some? && Effects["club"].secondPass.Some?
    ensures Effects["8d"].name == "8D Audio" && Effects["bass"].name == "Bass Boost"
         && Effects["club"].name == "Club Effect"
  {
  }

  /** The club preset: five equalizers shape the curve before the trailing gain stage. */
  lemma ClubChains()
    ensures FilterNames(Effects["club"].filters)
         == ["equalizer", "equalizer", "equalizer", "equalizer", "equalizer", "volume"]
    ensures FilterNames(Effects["club"].secondPass.value) == ["volume", "aecho", "aecho", "acompressor"]
  {
  }

  lemma BassChain()
    ensures FilterNames(Effects["bass"].filters) == ["volume", "equalizer", "equalizer"]
    ensures Effects["bass"].filters[0].options == Inline("1.5")
    ensures Effects["bass"].filters[1].options.entries[0] == ("frequency", Text("50"))
    ensures Effects["bass"].filters[2].options.entries[3] == ("gain", Text("10.4"))
  {
  }

  // The lookup as the source writes it indexes a plain JavaScript object, so a property
  // that every object inherits from Object.prototype is found as well, and its value
  // (a function or the prototype object) is truthy and passes the `!config` guard.

  /** Properties a plain JavaScript object inherits from Object.prototype. */
  const InheritedProperties: set<string> := {
    "constructor", "hasOwnProperty", "isPrototypeOf", "propertyIsEnumerable",
    "toLocaleString", "toString", "valueOf", "__proto__",
    "__defineGetter__", "__defineSetter__", "__lookupGetter__", "__lookupSetter__" }

  /** Whether the source's guard lets an effect id through. */
  predicate GuardPassesAsWritten(effectType: string) {
    effectType in Effects || effectType in InheritedProperties
  }

  /** "toString" names no preset, yet the guard as written lets it through. */
  lemma InheritedNamePassesGuard()
    ensures GuardPassesAsWritten("toString")
    ensures "toString" !in Effects && Lookup("toString").Failure?
  {
  }
}
