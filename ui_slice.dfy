/**
 * The browser's UI preferences: a five-field record whose reducers flip or set one
 * field and then write the whole record to the browser's local storage under the key
 * "UIState". Writing never fails the reducer: a storage error is swallowed. At start-up
 * the record is read back, or a fixed default is used.
 *
 * JSON encoding is not modelled: a storage entry holds the record itself, or something
 * that does not read back as one.
 */
module UiSlice {

  datatype Theme = Light | Dark

  datatype UiState = UiState(
    theme: Theme,
    sidebarOpen: bool,
    currentPage: int,
    itemsPerPage: int,
    showSearchHistory: bool)

  const UiStateKey := "UIState"

  /** The record used when nothing usable is stored. */
  const DefaultUiState := UiState(Light, false, 1, 10, false)

  /** A storage entry: a saved record, or text that is empty or not valid JSON. */
  datatype StoredValue = UiJson(state: UiState) | Unreadable

  /** What reading an entry gives: an exception, no entry, or the entry. */
  datatype ReadResult = Threw | Missing | Found(value: StoredValue)

  /** The other theme. */
  function Toggled(t: Theme): (r: Theme)
    ensures r != t
  {
    if t == Light then Dark else Light
  }

  /** Toggling twice gives the theme back. */
  lemma ToggledTwice(t: Theme)
    ensures Toggled(Toggled(t)) == t
  {
  }

  /**
   * The browser's local storage, reduced to string keys and entries. Reading and writing
   * can each be made to throw; every attempt to write is counted.
   */
  class LocalStorage {
    var items: map<string, StoredValue>
    var readFails: bool
    var writeFails: bool
    var setItemCalls: nat

    constructor (items: map<string, StoredValue>, readFails: bool, writeFails: bool)
      ensures this.items == items && this.readFails == readFails && this.writeFails == writeFails
      ensures setItemCalls == 0
    {
      this.items := items;
      this.readFails := readFails;
      this.writeFails := writeFails;
      setItemCalls := 0;
    }

    /** `getItem(key)`: reading changes nothing. */
    method GetItem(key: string) returns (r: ReadResult)
      ensures readFails ==> r == Threw
      ensures !readFails && key !in items ==> r == Missing
      ensures !readFails && key in items ==> r == Found(items[key])
    {
      if readFails {
        r := Threw;
      } else if key in items {
        r := Found(items[key]);
      } else {
        r := Missing;
      }
    }

    /** `setItem(key, value)`: stores the entry unless the write throws. */
    method SetItem(key: string, value: StoredValue) returns (threw: bool)
      modifies this`items, this`setItemCalls
      ensures threw == writeFails
      ensures items == if writeFails then old(items) else old(items)[key := value]
      ensures setItemCalls == old(setItemCalls) + 1
    {
      threw := writeFails;
      if !writeFails {
        items := items[key := value];
      }
      setItemCalls := setItemCalls + 1;
    }
  }

  /**
   * One write of `s` under "UIState" was attempted, and it changed the storage exactly
   * when the storage accepts writes.
   */
  twostate predicate SavedOnce(storage: LocalStorage, s: UiState)
    reads storage
  {
    && storage.setItemCalls == old(storage.setItemCalls) + 1
    && storage.readFails == old(storage.readFails)
    && storage.writeFails == old(storage.writeFails)
    && storage.items == if old(storage.writeFails) then old(storage.items)
                        else old(storage.items)[UiStateKey := UiJson(s)]
  }

  /** `saveUiStateToStorage`: a failing write is caught and otherwise ignored. */
  method SaveUiStateToStorage(storage: LocalStorage, s: UiState)
    modifies storage
    ensures SavedOnce(storage, s)
  {
    var threw := storage.SetItem(UiStateKey, UiJson(s));
    // a failure is only logged
  }

  /**
   * `loadUiStateFromStorage`: a stored record comes back as it was saved; a missing
   * entry, an unreadable one, or a read that throws gives the default. Nothing is written.
   */
  method LoadUiStateFromStorage(storage: LocalStorage) returns (s: UiState)
    ensures !storage.readFails && UiStateKey in storage.items && storage.items[UiStateKey].UiJson?
            ==> s == storage.items[UiStateKey].state
    ensures storage.readFails || UiStateKey !in storage.items || storage.items[UiStateKey].Unreadable?
            ==> s == DefaultUiState
  {
    var stored := storage.GetItem(UiStateKey);
    match stored
    case Found(UiJson(state)) => s := state;
    case _ => s := DefaultUiState;
  }

  /** The store; every reducer changes the record and then saves it. */
  class UiStore {
    var theme: Theme
    var sidebarOpen: bool
    var currentPage: int
    var itemsPerPage: int
    var showSearchHistory: bool
    const storage: LocalStorage

    function State(): UiState
      reads this
    {
      UiState(theme, sidebarOpen, currentPage, itemsPerPage, showSearchHistory)
    }

    /** The initial state is whatever `LoadUiStateFromStorage` reads; the default is not written back. */
    constructor (storage: LocalStorage)
      ensures this.storage == storage
      ensures !storage.readFails && UiStateKey in storage.items && storage.items[UiStateKey].UiJson?
              ==> State() == storage.items[UiStateKey].state
      ensures storage.readFails || UiStateKey !in storage.items || storage.items[UiStateKey].Unreadable?
              ==> State() == DefaultUiState
    {
      this.storage := storage;
      var s := LoadUiStateFromStorage(storage);
      theme := s.theme;
      sidebarOpen := s.sidebarOpen;
      currentPage := s.currentPage;
      itemsPerPage := s.itemsPerPage;
      showSearchHistory := s.showSearchHistory;
    }

    method ToggleTheme()
      modifies this, storage
      ensures State() == old(State()).(theme := Toggled(old(theme)))
      ensures SavedOnce(storage, State())
    {
      theme := if theme == Light then Dark else Light;
      SaveUiStateToStorage(storage, State());
    }

    method ToggleSidebar()
      modifies this, storage
      ensures State() == old(State()).(sidebarOpen := !old(sidebarOpen))
      ensures SavedOnce(storage, State())
    {
      sidebarOpen := !sidebarOpen;
      SaveUiStateToStorage(storage, State());
    }

    /** Any page number is stored as given; it is not checked against anything. */
    method SetCurrentPage(page: int)
      modifies this, storage
      ensures State() == old(State()).(currentPage := page)
      ensures SavedOnce(storage, State())
    {
      currentPage := page;
      SaveUiStateToStorage(storage, State());
    }

    /** A new page size always sends the view back to page 1. */
    method SetItemsPerPage(n: int)
      modifies this, storage
      ensures State() == old(State()).(itemsPerPage := n, currentPage := 1)
      ensures SavedOnce(storage, State())
    {
      itemsPerPage := n;
      currentPage := 1;
      SaveUiStateToStorage(storage, State());
    }

    method ToggleSearchHistory()
      modifies this, storage
      ensures State() == old(State()).(showSearchHistory := !old(showSearchHistory))
      ensures SavedOnce(storage, State())
    {
      showSearchHistory := !showSearchHistory;
      SaveUiStateToStorage(storage, State());
    }
  }

  /**
   * What a later start-up sees: after a reducer ran on a storage that accepts writes and
   * reads, loading gives back exactly the record in memory.
   */
  method ReloadAfterToggle(store: UiStore) returns (reloaded: UiState)
    requires !store.storage.readFails && !store.storage.writeFails
    modifies store, store.storage
    ensures store.State() == old(store.State()).(theme := Toggled(old(store.theme)))
    ensures reloaded == store.State()
  {
    store.ToggleTheme();
    reloaded := LoadUiStateFromStorage(store.storage);
  }

  /** When writes fail the record still changes, and the storage keeps what it had. */
  method ToggleWithFailingStorage(store: UiStore)
    requires store.storage.writeFails
    modifies store, store.storage
    ensures store.theme == Toggled(old(store.theme))
    ensures store.storage.items == old(store.storage.items)
  {
    store.ToggleTheme();
  }

  /** Toggling the theme twice restores the record and leaves two writes behind. */
  method ToggleThemeTwice(store: UiStore)
    modifies store, store.storage
    ensures store.State() == old(store.State())
    ensures store.storage.setItemCalls == old(store.storage.setItemCalls) + 2
  {
    store.ToggleTheme();
    store.ToggleTheme();
  }
}
