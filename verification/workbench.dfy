/**
 * The filter workbench's selection logic: which filters a command line selects, which of them can
 * be built, and the arguments they are built with. The measurements the workbench runs on the
 * filters are not part of this model.
 */
module Workbench {
  import opened Common
  import Windows
  import Dsp
  import Iir

  /** `FilterChoice`: the filters the workbench can build, in declaration order. */
  datatype FilterChoice = Complex | Biquad | Svf | Cytomic | Dft

  /** `FilterSelector`: a choice, or `all` of them. */
  datatype FilterSelector = All | SelectComplex | SelectBiquad | SelectSvf | SelectCytomic | SelectDft

  /** What `expand_filter_choices` yields for `all`. */
  const AllChoices: seq<FilterChoice> := [Complex, Svf, Biquad, Cytomic, Dft]

  /** The selector that names a choice. */
  function SelectorOf(c: FilterChoice): (s: FilterSelector)
    ensures !s.All?
  {
    match c
    case Complex => SelectComplex
    case Biquad => SelectBiquad
    case Svf => SelectSvf
    case Cytomic => SelectCytomic
    case Dft => SelectDft
  }

  /** The choice a selector other than `all` names. */
  function ChoiceOf(s: FilterSelector): (c: FilterChoice)
    requires !s.All?
    ensures SelectorOf(c) == s
  {
    match s
    case SelectComplex => Complex
    case SelectBiquad => Biquad
    case SelectSvf => Svf
    case SelectCytomic => Cytomic
    case SelectDft => Dft
  }

  predicate AnyAll(selectors: seq<FilterSelector>)
  {
    exists i :: 0 <= i < |selectors| && selectors[i].All?
  }

  /** The element-wise conversion of selectors none of which is `all`. */
  function ConvertEach(selectors: seq<FilterSelector>): (r: seq<FilterChoice>)
    requires !AnyAll(selectors)
    ensures |r| == |selectors|
    ensures forall i :: 0 <= i < |r| ==> SelectorOf(r[i]) == selectors[i]
  {
    if selectors == [] then []
    else
      assert forall i :: 0 <= i < |selectors[1..]| ==> selectors[1..][i] == selectors[i + 1];
      [ChoiceOf(selectors[0])] + ConvertEach(selectors[1..])
  }

  /**
   * `expand_filter_choices`: any `all` yields every choice, Complex, Svf, Biquad, Cytomic, Dft in
   * that order; otherwise each selector becomes the choice it names, in order, so the `unreachable`
   * arm is never taken.
   */
  function ExpandFilterChoices(selectors: seq<FilterSelector>): (r: seq<FilterChoice>)
    ensures AnyAll(selectors) ==> r == AllChoices
    ensures !AnyAll(selectors) ==> |r| == |selectors| && forall i :: 0 <= i < |r| ==> SelectorOf(r[i]) == selectors[i]
  {
    if AnyAll(selectors) then AllChoices else ConvertEach(selectors)
  }

  /** `all` names every choice exactly once. */
  lemma AllChoicesComplete()
    ensures forall c: FilterChoice :: c in AllChoices
    ensures forall i, j :: 0 <= i < j < |AllChoices| ==> AllChoices[i] != AllChoices[j]
  {
    forall c: FilterChoice
      ensures c in AllChoices
    {
      match c
      case Complex => assert AllChoices[0] == c;
      case Svf => assert AllChoices[1] == c;
      case Biquad => assert AllChoices[2] == c;
      case Cytomic => assert AllChoices[3] == c;
      case Dft => assert AllChoices[4] == c;
    }
  }

  /** Without `all`, expanding the selectors of some choices gives those choices back. */
  lemma {:induction false} ExpandInvertsSelectors(choices: seq<FilterChoice>)
    ensures ExpandFilterChoices(seq(|choices|, i requires 0 <= i < |choices| => SelectorOf(choices[i]))) == choices
  {
    var selectors := seq(|choices|, i requires 0 <= i < |choices| => SelectorOf(choices[i]));
    assert !AnyAll(selectors);
    var r := ExpandFilterChoices(selectors);
    forall i | 0 <= i < |r|
      ensures r[i] == choices[i]
    {
      assert SelectorOf(r[i]) == SelectorOf(choices[i]);
      assert ChoiceOf(SelectorOf(r[i])) == r[i] by {
        match r[i]
        case Complex =>
        case Biquad =>
        case Svf =>
        case Cytomic =>
        case Dft =>
      }
      assert ChoiceOf(SelectorOf(choices[i])) == choices[i] by {
        match choices[i]
        case Complex =>
        case Biquad =>
        case Svf =>
        case Cytomic =>
        case Dft =>
      }
    }
  }

  /** The filter `instantiate` builds: a cascade of one section kind, or a DFT. */
  datatype Instance = Cascade(kind: Iir.Kind) | DftFilter

  /**
   * `FilterChoice::instantiate`: Biquad, Svf and Cytomic become cascades of that section, Dft a
   * DFT; Complex is not implemented (`todo!`) and yields `None`.
   */
  function Instantiate(c: FilterChoice): (r: Option<Instance>)
    ensures r.None? <==> c == Complex
    ensures c == Dft ==> r == Some(DftFilter)
    ensures r.Some? && r.value.Cascade? ==>
      (c == Biquad <==> r.value.kind == Iir.Biquad) && (c == Svf <==> r.value.kind == Iir.Svf) && (c == Cytomic <==> r.value.kind == Iir.Cytomic)
  {
    match c
    case Biquad => Some(Cascade(Iir.Biquad))
    case Svf => Some(Cascade(Iir.Svf))
    case Cytomic => Some(Cascade(Iir.Cytomic))
    case Dft => Some(DftFilter)
    case Complex => None
  }

  /**
   * A command that expands its selectors and instantiates each choice (as `sanity` does) reaches
   * the unimplemented Complex filter whenever `all` is selected, and only if `all` or `complex` is.
   */
  lemma ExpandThenInstantiate(selectors: seq<FilterSelector>)
    ensures AnyAll(selectors) ==> exists i :: 0 <= i < |ExpandFilterChoices(selectors)| && Instantiate(ExpandFilterChoices(selectors)[i]).None?
    ensures (exists i :: 0 <= i < |ExpandFilterChoices(selectors)| && Instantiate(ExpandFilterChoices(selectors)[i]).None?) <==>
      exists j :: 0 <= j < |selectors| && (selectors[j].All? || selectors[j].SelectComplex?)
  {
    var r := ExpandFilterChoices(selectors);
    if AnyAll(selectors) {
      assert Instantiate(r[0]).None?;
    } else {
      if exists j :: 0 <= j < |selectors| && selectors[j].SelectComplex? {
        var j :| 0 <= j < |selectors| && selectors[j].SelectComplex?;
        assert SelectorOf(r[j]) == SelectComplex;
      }
    }
  }

  /** `WorkbenchConfig::args`: the stubbed defaults of the workbench. */
  function WorkbenchArgs(): (a: Dsp.FilterArgs)
    ensures a.q == 8.0 && a.center == 1000.0 && a.fs == 48000.0 && a.gainFactor == 1.0
    ensures a.stages == 1 && !a.butterworth && a.stagger == Some(1.01)
    ensures a.windowChoice == Windows.DolphChebyshev(22.5)
  {
    Dsp.FilterArgs(8.0, 1000.0, 48000.0, 1.0, false, Some(1.01), 1, Windows.DolphChebyshev(22.5))
  }

  /**
   * The workbench arguments meet what a cascade needs (a stagger comes with at least one stage),
   * and they are not the library's `FilterArgs::default` (Q 10, four stages, no stagger, 40 dB).
   */
  lemma WorkbenchArgsBuildCascades()
    ensures WorkbenchArgs().stagger.Some? ==> WorkbenchArgs().stages >= 1
    ensures WorkbenchArgs() != Dsp.DefaultArgs
    ensures WorkbenchArgs().center == Dsp.DefaultArgs.center && WorkbenchArgs().fs == Dsp.DefaultArgs.fs
  {
  }
}
