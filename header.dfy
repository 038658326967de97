/** The top bar (src/components/Header.tsx): the last health record, the online flag and
    status text derived from it, and the language toggle with its label. The 30-second
    polling timer is not modelled: each poll is one call of `FetchHealth`. */
module Header {
  import opened Wrappers
  import opened I18n
  import opened Api
  import opened LanguageContext

  /** `health?.status === 'healthy'`: online only with a record whose status is exactly
      "healthy". */
  predicate IsOnline(health: Option<HealthResponse>) {
    health.Some? && health.value.status == "healthy"
  }

  /** What one health poll stores: the returned record unchanged, or nothing when the
      check threw. */
  function HealthAfterPoll(outcome: Result<HealthResponse, ClientError>): (health: Option<HealthResponse>)
    ensures outcome.Success? ==> health == Some(outcome.value)
    ensures outcome.Failure? ==> health == None
  {
    match outcome
    case Success(data) => Some(data)
    case Failure(_) => None
  }

  /** A failed poll always leaves the header offline. */
  lemma FailedPollIsOffline(e: ClientError)
    ensures !IsOnline(HealthAfterPoll(Failure(e)))
  {
  }

  /** A successful poll is online exactly when the server reported "healthy". */
  lemma PollOnlineIffHealthy(data: HealthResponse)
    ensures IsOnline(HealthAfterPoll(Success(data))) <==> data.status == "healthy"
  {
  }

  /** The status text: `t('online')` when online, `t('offline')` otherwise. */
  function StatusText(health: Option<HealthResponse>, lang: Language): (text: string)
    ensures IsOnline(health) ==> text == Entry(lang, Online)
    ensures !IsOnline(health) ==> text == Entry(lang, Offline)
  {
    TranslateIsEntry(Online, lang);
    TranslateIsEntry(Offline, lang);
    if IsOnline(health) then Translate(Online, lang) else Translate(Offline, lang)
  }

  /** The language the toggle switches to: the other one. */
  function Toggled(lang: Language): (next: Language)
    ensures next != lang
  {
    if lang == Ar then En else Ar
  }

  /** Toggling twice restores the original language. */
  lemma ToggleTwiceRestores(lang: Language)
    ensures Toggled(Toggled(lang)) == lang
  {
  }

  /** The toggle's label names the language it switches to. */
  function ToggleLabel(lang: Language): (caption: string)
    ensures lang == Ar ==> caption == "EN"
    ensures lang == En ==> caption == "عربي"
  {
    if lang == Ar then "EN" else "عربي"
  }

  /** The state of one mounted header. */
  class HeaderState {
    var health: Option<HealthResponse>

    /** Before the first poll there is no record, so the header shows offline. */
    constructor ()
      ensures health == None && !IsOnline(health)
    {
      health := None;
    }

    /** `fetchHealth`: a failure is swallowed and stored as no record. */
    method FetchHealth(outcome: Result<HealthResponse, ClientError>)
      modifies this
      ensures health == HealthAfterPoll(outcome)
      ensures outcome.Failure? ==> !IsOnline(health)
    {
      health := HealthAfterPoll(outcome);
    }

    /** The toggle's click handler: `setLang(lang === 'ar' ? 'en' : 'ar')`; the header's own
        state is untouched. */
    method ToggleLanguage(provider: LanguageProvider)
      modifies provider
      ensures provider.lang == Toggled(old(provider.lang))
      ensures provider.IsRtl() <==> !old(provider.IsRtl())
    {
      provider.SetLang(Toggled(provider.lang));
    }
  }
}
