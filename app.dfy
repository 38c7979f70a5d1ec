/** The page component's own state (`App`): the colour theme, the
    published repository list and its error flag, and the split of the work
    history into the always-shown preview and the expandable rest. */
module App {
  import opened Repos
  import opened Showcase

  datatype Theme = Dark | Light

  /** The other theme (`toggleTheme`'s updater). */
  function Toggle(t: Theme): (r: Theme)
    ensures r != t
  {
    if t == Dark then Light else Dark
  }

  lemma ToggleTwice(t: Theme)
    ensures Toggle(Toggle(t)) == t
  {
  }

  /** The theme the page starts with: `None` when there is no `window`
      (dark), otherwise whether `(prefers-color-scheme: light)` matches. */
  function InitialTheme(prefersLight: Option<bool>): (r: Theme)
    ensures r == Light <==> prefersLight == Some(true)
  {
    match prefersLight
    case None => Dark
    case Some(light) => if light then Light else Dark
  }

  /** How many work-history entries are always shown
      (`EXPERIENCE_PREVIEW_COUNT`). */
  const ExperiencePreviewCount: nat := 3

  /** `experience.slice(0, EXPERIENCE_PREVIEW_COUNT)`: the first entries, at
      most three. */
  function PreviewExperience<T>(experience: seq<T>): (p: seq<T>)
    ensures |p| == Min(ExperiencePreviewCount, |experience|)
    ensures p <= experience
  {
    Slice(experience, 0, ExperiencePreviewCount)
  }

  /** `experience.slice(EXPERIENCE_PREVIEW_COUNT)`: what the preview leaves
      out, in order. */
  function ExtraExperience<T>(experience: seq<T>): (e: seq<T>)
    ensures PreviewExperience(experience) + e == experience
  {
    var e := Slice(experience, ExperiencePreviewCount, |experience|);
    assert PreviewExperience(experience) + e == experience;
    e
  }

  /** Whether there is more history than the preview shows
      (`hasMoreExperience`). */
  function HasMoreExperience<T>(experience: seq<T>): (b: bool)
    ensures b <==> |experience| > ExperiencePreviewCount
  {
    |ExtraExperience(experience)| > 0
  }

  /** The component's state hooks that the modelled code writes. */
  class AppState {
    var theme: Theme
    var repos: seq<Repo>
    var reposError: bool

    /** The initial state: no list yet, no error. */
    constructor (prefersLight: Option<bool>)
      ensures theme == InitialTheme(prefersLight)
      ensures repos == [] && !reposError
    {
      theme := InitialTheme(prefersLight);
      repos := [];
      reposError := false;
    }

    /** Switches to the other theme (`toggleTheme`). */
    method ToggleTheme()
      modifies this
      ensures theme == Toggle(old(theme))
      ensures repos == old(repos) && reposError == old(reposError)
    {
      theme := Toggle(theme);
    }

    /** `loadRepos` once its requests have settled. `isMounted` is the
        component's mount flag as the code reads it before publishing: after
        teardown nothing is written. */
    method LoadRepos(primary: Fetch<seq<Repo>>, library: Fetch<Repo>, substrateConnect: Fetch<Repo>, isMounted: bool)
      modifies this
      ensures theme == old(theme)
      ensures !isMounted ==> repos == old(repos) && reposError == old(reposError)
      ensures isMounted && Load(primary, library, substrateConnect).Ready? ==>
        repos == Load(primary, library, substrateConnect).repos && reposError == old(reposError)
      ensures isMounted && Load(primary, library, substrateConnect).Errored? ==>
        reposError && repos == old(repos)
    {
      var outcome := ComputeShowcase(primary, library, substrateConnect);
      if isMounted {
        match outcome
        case Ready(list) => repos := list;
        case Errored => reposError := true;
      }
    }
  }
}
