/**
 * The plugin registry of `PluginManager.ts`: two append-only plugin lists and
 * a command-name to autocompletion-provider table with a default fallback.
 *
 * The class's static fields become the fields of one `PluginManager` object.
 * Registering a provider first asks whether the command exists; that
 * asynchronous answer is modelled as an explicit `Resolve` step taking the
 * answer as a parameter.
 */
module Plugins {
  import opened Wrappers
  import opened Providers

  /** Output prettifiers and environment observers are opaque to the registry; a name identifies each. */
  datatype Prettyfier = Prettyfier(name: string)
  datatype EnvironmentObserver = EnvironmentObserver(name: string)

  /** A registration whose `commandExists` check has not answered yet. */
  datatype Registration = Registration(commandName: string, provider: Provider)

  /**
   * `defaultAutocompletionProvider`: the environment-variable suggestions
   * followed by the file suggestions, failing exactly when the file provider fails.
   */
  function DefaultProvider(): (r: Provider)
    ensures forall context :: r(context).Ok? <==> AnyFilesSuggestionsProvider()(context).Ok?
    ensures forall context :: r(context).Ok? ==>
              r(context).value == EnvironmentVariableSuggestions(context).value + AnyFilesSuggestionsProvider()(context).value
  {
    var combined := Combine([EnvironmentVariableSuggestions, AnyFilesSuggestionsProvider()]);
    assert forall context :: && (combined(context).Ok? <==> AnyFilesSuggestionsProvider()(context).Ok?)
                             && (combined(context).Ok? ==>
                                   combined(context).value ==
                                     EnvironmentVariableSuggestions(context).value + AnyFilesSuggestionsProvider()(context).value) by {
      forall context {
        CombineTwo(EnvironmentVariableSuggestions, AnyFilesSuggestionsProvider(), context);
      }
    }
    combined
  }

  /** `autocompletionProviderFor` on a given table: the registered provider, else the default. */
  function ProviderFor(providers: map<string, Provider>, commandName: string): (r: Provider)
    ensures commandName in providers ==> r == providers[commandName]
    ensures commandName !in providers ==> r == DefaultProvider()
  {
    if commandName in providers then providers[commandName] else DefaultProvider()
  }

  /** The table after a registration's existence check answered `commandExists`. */
  function Registered(providers: map<string, Provider>, registration: Registration, commandExists: bool): (r: map<string, Provider>)
    ensures !commandExists ==> r == providers
    ensures commandExists ==> registration.commandName in r && r[registration.commandName] == registration.provider
    ensures forall name :: name != registration.commandName ==>
              (name in r <==> name in providers) && (name in r ==> r[name] == providers[name])
  {
    if commandExists then providers[registration.commandName := registration.provider] else providers
  }

  /** A registration whose command does not exist changes no lookup. */
  lemma MissingCommandIgnored(providers: map<string, Provider>, registration: Registration, commandName: string)
    ensures ProviderFor(Registered(providers, registration, false), commandName) == ProviderFor(providers, commandName)
  {
  }

  /** After a successful registration its command looks up its provider, and every other command looks up what it did before. */
  lemma RegisteredLookup(providers: map<string, Provider>, registration: Registration, commandName: string)
    ensures ProviderFor(Registered(providers, registration, true), commandName) ==
              if commandName == registration.commandName then registration.provider else ProviderFor(providers, commandName)
  {
  }

  /** Of two successful registrations for the same command, the later one wins. */
  lemma LaterRegistrationWins(providers: map<string, Provider>, first: Registration, second: Registration)
    requires first.commandName == second.commandName
    ensures Registered(Registered(providers, first, true), second, true) == Registered(providers, second, true)
  {
  }

  /** Successful registrations for different commands commute. */
  lemma RegistrationsCommute(providers: map<string, Provider>, a: Registration, b: Registration, aExists: bool, bExists: bool)
    requires a.commandName != b.commandName
    ensures Registered(Registered(providers, a, aExists), b, bExists) == Registered(Registered(providers, b, bExists), a, aExists)
  {
  }

  class PluginManager {
    var prettyfiers: seq<Prettyfier>
    var environmentObservers: seq<EnvironmentObserver>
    var autocompletionProviders: map<string, Provider>
    /** The registrations handed out so far, by ticket; `resolved` holds the tickets whose check has answered. */
    var pending: seq<Registration>
    var resolved: set<nat>

    /** The registry as the module loads: everything empty. */
    constructor ()
      ensures prettyfiers == [] && environmentObservers == []
      ensures autocompletionProviders == map[]
      ensures pending == [] && resolved == {}
    {
      prettyfiers := [];
      environmentObservers := [];
      autocompletionProviders := map[];
      pending := [];
      resolved := {};
    }

    method RegisterPrettyfier(prettyfier: Prettyfier)
      modifies this
      ensures prettyfiers == old(prettyfiers) + [prettyfier]
      ensures environmentObservers == old(environmentObservers)
      ensures autocompletionProviders == old(autocompletionProviders)
      ensures pending == old(pending) && resolved == old(resolved)
    {
      prettyfiers := prettyfiers + [prettyfier];
    }

    method RegisterEnvironmentObserver(plugin: EnvironmentObserver)
      modifies this
      ensures environmentObservers == old(environmentObservers) + [plugin]
      ensures prettyfiers == old(prettyfiers)
      ensures autocompletionProviders == old(autocompletionProviders)
      ensures pending == old(pending) && resolved == old(resolved)
    {
      environmentObservers := environmentObservers + [plugin];
    }

    /**
     * `registerAutocompletionProvider`: starts the existence check and returns
     * the ticket its answer will be delivered under; the table is not touched yet.
     */
    method RegisterAutocompletionProvider(commandName: string, provider: Provider) returns (ticket: nat)
      modifies this
      ensures ticket == |old(pending)| && pending == old(pending) + [Registration(commandName, provider)]
      ensures autocompletionProviders == old(autocompletionProviders)
      ensures prettyfiers == old(prettyfiers) && environmentObservers == old(environmentObservers)
      ensures resolved == old(resolved)
    {
      ticket := |pending|;
      pending := pending + [Registration(commandName, provider)];
    }

    /** The `then` of the existence check: the provider is stored only when the command exists, replacing any earlier one. */
    method Resolve(ticket: nat, commandExists: bool)
      requires ticket < |pending| && ticket !in resolved
      modifies this
      ensures autocompletionProviders == Registered(old(autocompletionProviders), old(pending)[ticket], commandExists)
      ensures pending == old(pending) && resolved == old(resolved) + {ticket}
      ensures prettyfiers == old(prettyfiers) && environmentObservers == old(environmentObservers)
    {
      if commandExists {
        autocompletionProviders := autocompletionProviders[pending[ticket].commandName := pending[ticket].provider];
      }
      resolved := resolved + {ticket};
    }

    /** `autocompletionProviderFor`. */
    function AutocompletionProviderFor(commandName: string): (r: Provider)
      reads this
      ensures r == ProviderFor(autocompletionProviders, commandName)
      ensures commandName !in autocompletionProviders ==> r == DefaultProvider()
    {
      if commandName in autocompletionProviders then autocompletionProviders[commandName] else DefaultProvider()
    }
  }
}
