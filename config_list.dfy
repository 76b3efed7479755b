/** The settings screen's editable list of one configuration kind: add, edit and
    delete entries, each accepted change saved through the configuration store. */
module ConfigList {
  import opened Common
  import opened Configuration

  datatype ConfigType = Url | Dns | Crl

  function KeyFor(t: ConfigType): string {
    match t
    case Url => UrlsKey
    case Dns => DnsHostsKey
    case Crl => CrlUrlsKey
  }

  function DefaultsFor(t: ConfigType): seq<string> {
    match t
    case Url => DefaultUrls
    case Dns => DefaultDnsHosts
    case Crl => DefaultCrlUrls
  }

  /** `TextUtils.isEmpty`: null or of length zero. */
  predicate IsEmptyText(s: Option<string>) {
    s.None? || s.value == []
  }

  /** The trimmed dialog text, null when the field held null. */
  function TrimmedInput(text: Option<string>): Option<string> {
    match text
    case None => None
    case Some(t) => Some(Trim(t))
  }

  /** What the dialog's positive button does to `entries`: None when the trimmed text
      is empty (nothing changes and nothing is saved); otherwise the new list, where a
      position inside the list (an edit) is overwritten and any other position (an add
      at -1, or a stale edit position) appends. */
  function Submitted(entries: seq<string>, text: Option<string>, position: int): (r: Option<seq<string>>)
    ensures r.None? <==> IsEmptyText(TrimmedInput(text))
    ensures r.Some? && 0 <= position < |entries| ==>
      && |r.value| == |entries|
      && r.value[position] == Trim(text.value)
      && forall j :: 0 <= j < |entries| && j != position ==> r.value[j] == entries[j]
    ensures r.Some? && !(0 <= position < |entries|) ==>
      && |r.value| == |entries| + 1
      && r.value[..|entries|] == entries
      && r.value[|entries|] == Trim(text.value)
    ensures r.Some? ==> r.value != []
  {
    var newValue := TrimmedInput(text);
    if IsEmptyText(newValue) then None
    else
      var isEdit := position >= 0;
      if isEdit && position < |entries| then Some(entries[position := newValue.value])
      else Some(entries + [newValue.value])
  }

  /** What a confirmed delete at an adapter position does to `entries`. */
  function Deleted(entries: seq<string>, position: nat): (r: seq<string>)
    ensures position < |entries| ==>
      && |r| == |entries| - 1
      && r[..position] == entries[..position]
      && r[position..] == entries[position + 1..]
    ensures position >= |entries| ==> r == entries
  {
    if position < |entries| then entries[..position] + entries[position + 1..] else entries
  }

  /** The store after `saveEntries`: the list goes under the key of the fragment's
      kind; a fragment without a kind saves nothing. */
  function StoreAfterSave(prefs: Store, configType: Option<ConfigType>, entries: seq<string>): Store {
    match configType
    case None => prefs
    case Some(t) => Saved(prefs, KeyFor(t), entries)
  }

  /** The list `loadEntries` shows. */
  function LoadedEntries(prefs: Store, configType: Option<ConfigType>): seq<string> {
    match configType
    case None => []
    case Some(t) => Loaded(prefs, KeyFor(t), DefaultsFor(t))
  }

  function StoreAfterLoadEntries(prefs: Store, configType: Option<ConfigType>): Store {
    match configType
    case None => prefs
    case Some(t) => StoreAfterLoad(prefs, KeyFor(t), DefaultsFor(t))
  }

  class ConfigListFragment {
    var entries: seq<string>
    const configType: Option<ConfigType>
    const configManager: ConfigurationManager

    constructor (configType: Option<ConfigType>, configManager: ConfigurationManager)
      ensures this.configType == configType && this.configManager == configManager
      ensures entries == []
    {
      this.configType := configType;
      this.configManager := configManager;
      entries := [];
    }

    method LoadEntries()
      modifies this, configManager
      ensures entries == LoadedEntries(old(configManager.prefs), configType)
      ensures configManager.prefs == StoreAfterLoadEntries(old(configManager.prefs), configType)
    {
      match configType {
        case None =>
          entries := [];
        case Some(t) =>
          match t {
            case Url =>
              entries := configManager.GetUrls();
            case Dns =>
              entries := configManager.GetDnsHosts();
            case Crl =>
              entries := configManager.GetCrlUrls();
          }
      }
    }

    method SaveEntries()
      modifies configManager
      ensures configManager.prefs == StoreAfterSave(old(configManager.prefs), configType, entries)
    {
      match configType {
        case None =>
        case Some(t) =>
          match t {
            case Url =>
              configManager.SaveUrls(entries);
            case Dns =>
              configManager.SaveDnsHosts(entries);
            case Crl =>
              configManager.SaveCrlUrls(entries);
          }
      }
    }

    /** The positive button of the add/edit dialog, with the field's text. */
    method ConfirmEdit(text: Option<string>, position: int)
      modifies this, configManager
      ensures Submitted(old(entries), text, position).None? ==>
        entries == old(entries) && configManager.prefs == old(configManager.prefs)
      ensures Submitted(old(entries), text, position).Some? ==>
        && entries == Submitted(old(entries), text, position).value
        && configManager.prefs == StoreAfterSave(old(configManager.prefs), configType, entries)
    {
      var newValue := TrimmedInput(text);
      if !IsEmptyText(newValue) {
        var isEdit := position >= 0;
        if isEdit && position < |entries| {
          entries := entries[position := newValue.value];
        } else {
          entries := entries + [newValue.value];
        }
        SaveEntries();
      }
    }

    /** `deleteEntry(position)`; `confirmed` is whether the user pressed "Delete" in
        the confirmation dialog rather than "Cancel". */
    method DeleteEntry(position: nat, confirmed: bool)
      modifies this, configManager
      ensures confirmed && position < old(|entries|) ==>
        && entries == Deleted(old(entries), position)
        && configManager.prefs == StoreAfterSave(old(configManager.prefs), configType, entries)
      ensures !(confirmed && position < old(|entries|)) ==>
        entries == old(entries) && configManager.prefs == old(configManager.prefs)
    {
      if position < |entries| && confirmed {
        entries := entries[..position] + entries[position + 1..];
        SaveEntries();
      }
    }
  }

  /** Whitespace typed around a value does not change what is stored. */
  lemma PaddingIgnored(entries: seq<string>, p: string, s: string, q: string, position: int)
    requires AllWhitespace(p) && AllWhitespace(q)
    ensures Submitted(entries, Some(p + s + q), position) == Submitted(entries, Some(s), position)
  {
    TrimIgnoresPadding(p, s, q);
  }

  /** A blank entry is rejected wherever it was typed. */
  lemma {:induction false} BlankRejected(entries: seq<string>, s: string, position: int)
    requires AllWhitespace(s)
    ensures Submitted(entries, Some(s), position).None?
  {
    TrimStartPadding(s, []);
    assert s + [] == s;
  }

  /** Adding an entry and then deleting the last position gives back the list. */
  lemma AddThenDeleteLast(entries: seq<string>, text: string)
    requires Trim(text) != []
    ensures Deleted(Submitted(entries, Some(text), -1).value, |entries|) == entries
  {
    var added := Submitted(entries, Some(text), -1).value;
    assert added[..|entries|] == entries;
  }

  /** Editing an entry to the value it already has (trimmed) changes nothing. */
  lemma EditToSameValue(entries: seq<string>, text: string, position: int)
    requires 0 <= position < |entries| && Trim(text) == entries[position] && entries[position] != []
    ensures Submitted(entries, Some(text), position) == Some(entries)
  {
    var r := Submitted(entries, Some(text), position).value;
    assert forall j :: 0 <= j < |entries| ==> r[j] == entries[j];
    assert r == entries;
  }

  /** Every accepted edit or add is what the next load of that kind returns. */
  lemma AcceptedChangePersists(prefs: Store, t: ConfigType, entries: seq<string>, text: Option<string>, position: int)
    requires Submitted(entries, text, position).Some?
    ensures var l := Submitted(entries, text, position).value;
      LoadedEntries(StoreAfterSave(prefs, Some(t), l), Some(t)) == l
  {
    SaveThenLoad(prefs, KeyFor(t), Submitted(entries, text, position).value, DefaultsFor(t));
  }

  /** Deleting the only entry stores an empty list, which the next load replaces by
      the defaults of that kind. */
  lemma DeletingLastEntryRestoresDefaults(prefs: Store, t: ConfigType, entry: string)
    ensures LoadedEntries(StoreAfterSave(prefs, Some(t), Deleted([entry], 0)), Some(t)) == DefaultsFor(t)
  {
    assert Deleted([entry], 0) == [];
    UnusableValueFallsBack(Saved(prefs, KeyFor(t), []), KeyFor(t), DefaultsFor(t));
  }
}
