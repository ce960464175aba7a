/**
 * The local admin page: the admin sign-in, the client list kept in local
 * storage (add, delete, update, and the two client forms), the system
 * settings edited one field at a time, and the per-folder view of the local
 * media store with delete, show/hide and move-to-another-day actions.
 * Client ids (`Date.now()`) are parameters; toasts, the saved admin password
 * and the colour conversion for the page theme are not part of this model.
 */
module AdminPanel {
  import opened Seqs
  import opened Text
  import opened Types
  import opened FileStore
  import MediaFolders
  import ClientManager

  const AdminPassword: string := "admin123"

  /* ---------------- Clients ---------------- */

  /** `handleAddClient`: nothing is added unless name, password and prefix are
      all non-empty; otherwise one client with the form's fields and the given
      id goes at the end. */
  function ClientsAfterAdd(clients: seq<Client>, form: ClientForm, id: string): (r: seq<Client>)
    ensures !ClientManager.CanSave(form) ==> r == clients
    ensures ClientManager.CanSave(form) ==>
              |r| == |clients| + 1 && r[..|clients|] == clients &&
              r[|clients|] == Client(id, form.name, form.password, form.prefix)
  {
    if ClientManager.CanSave(form) then
      var r := clients + [Client(id, form.name, form.password, form.prefix)];
      assert r[..|clients|] == clients;
      r
    else clients
  }

  /** The test `c.id !== id` of `handleDeleteClient`. */
  function OtherId(id: string): Client -> bool {
    (c: Client) => c.id != id
  }

  /** `handleDeleteClient`: every client with the id goes, the rest stay in order. */
  function ClientsAfterDelete(clients: seq<Client>, id: string): (r: seq<Client>)
    ensures |r| <= |clients|
    ensures forall c :: c in r <==> c in clients && c.id != id
    ensures (forall i :: 0 <= i < |clients| ==> clients[i].id != id) ==> r == clients
  {
    FilterExactly(clients, OtherId(id));
    if forall i :: 0 <= i < |clients| ==> clients[i].id != id then
      FilterAllPass(clients, OtherId(id));
      Filter(clients, OtherId(id))
    else Filter(clients, OtherId(id))
  }

  /** Deleting keeps the list's order: deleting from a concatenation deletes
      from each part. */
  lemma DeleteKeepsOrder(a: seq<Client>, b: seq<Client>, id: string)
    ensures ClientsAfterDelete(a + b, id) == ClientsAfterDelete(a, id) + ClientsAfterDelete(b, id)
  {
    FilterConcat(a, b, OtherId(id));
  }

  /** `handleUpdateClient`: every client with the updated client's id is
      replaced by it; the length and every other entry stay. */
  function ClientsAfterUpdate(clients: seq<Client>, updated: Client): (r: seq<Client>)
    ensures |r| == |clients|
    ensures forall i :: 0 <= i < |r| ==>
              (clients[i].id == updated.id ==> r[i] == updated) &&
              (clients[i].id != updated.id ==> r[i] == clients[i])
  {
    seq(|clients|, i requires 0 <= i < |clients| =>
      if clients[i].id == updated.id then updated else clients[i])
  }

  /** Adding a client with a fresh id and then deleting that id gives back the
      list as it was. */
  lemma AddThenDelete(clients: seq<Client>, form: ClientForm, id: string)
    requires forall i :: 0 <= i < |clients| ==> clients[i].id != id
    ensures ClientsAfterDelete(ClientsAfterAdd(clients, form, id), id) == clients
  {
    if ClientManager.CanSave(form) {
      var added := Client(id, form.name, form.password, form.prefix);
      DeleteKeepsOrder(clients, [added], id);
      assert Filter([added], OtherId(id)) == [];
    }
  }

  /** Updating a client and then deleting its id is the same as deleting it
      straight away. */
  lemma {:induction false} UpdateThenDelete(clients: seq<Client>, updated: Client)
    ensures ClientsAfterDelete(ClientsAfterUpdate(clients, updated), updated.id) ==
            ClientsAfterDelete(clients, updated.id)
  {
    if clients != [] {
      var u := ClientsAfterUpdate(clients, updated);
      assert u[1..] == ClientsAfterUpdate(clients[1..], updated);
      UpdateThenDelete(clients[1..], updated);
    }
  }

  /** Updating twice with the same client is updating once. */
  lemma UpdateIdempotent(clients: seq<Client>, updated: Client)
    ensures ClientsAfterUpdate(ClientsAfterUpdate(clients, updated), updated) ==
            ClientsAfterUpdate(clients, updated)
  {
  }

  /** The fields a client form can write. */
  datatype ClientField = IdField | NameField | PasswordField | PrefixField

  /** `handleNewClientChange`: the new-client form takes no id. */
  function FormWith(form: ClientForm, field: ClientField, value: string): (r: ClientForm)
    requires field != IdField
    ensures field == NameField ==> r == ClientForm(value, form.prefix, form.password)
    ensures field == PasswordField ==> r == ClientForm(form.name, form.prefix, value)
    ensures field == PrefixField ==> r == ClientForm(form.name, value, form.password)
  {
    match field
    case NameField => form.(name := value)
    case PasswordField => form.(password := value)
    case PrefixField => form.(prefix := value)
  }

  /** `handleEditingClientChange` on the client being edited. */
  function ClientWith(c: Client, field: ClientField, value: string): (r: Client)
    ensures field == IdField ==> r == Client(value, c.name, c.password, c.prefix)
    ensures field == NameField ==> r == Client(c.id, value, c.password, c.prefix)
    ensures field == PasswordField ==> r == Client(c.id, c.name, value, c.prefix)
    ensures field == PrefixField ==> r == Client(c.id, c.name, c.password, value)
  {
    match field
    case IdField => c.(id := value)
    case NameField => c.(name := value)
    case PasswordField => c.(password := value)
    case PrefixField => c.(prefix := value)
  }

  /* ---------------- System settings ---------------- */

  datatype Orientation = Landscape | Portrait

  /** The `SystemSettings` record; an optional field is an `Option`. */
  datatype SystemSettings = SystemSettings(
    showFooter: bool,
    showMarquee: bool,
    marqueeText: string,
    showLottery: bool,
    showWeather: bool,
    showNews: bool,
    primaryColor: string,
    accentColor: string,
    playerOrientation: Option<Orientation>,
    lotteryApi: Option<string>,
    weatherApi: Option<string>,
    newsApi: Option<string>
  )

  /** The settings used when nothing was saved before. */
  const InitialSettings: SystemSettings := SystemSettings(
    true, true, "PARATECH SOLUÇÕES E SISTEMAS - Sistema de Mídia Digital", true, true, true,
    "#3b82f6", "#8b5cf6", Some(Landscape), None, None, None)

  datatype SystemField =
    | ShowFooter | ShowMarquee | MarqueeText | ShowLottery | ShowWeather | ShowNews
    | PrimaryColor | AccentColor | PlayerOrientation | LotteryApi | WeatherApi | NewsApi

  /** A field's value, whatever its type. */
  datatype SettingValue = Flag(on: bool) | Text(text: string) | Orient(o: Option<Orientation>) | Key(key: Option<string>)

  function Get(s: SystemSettings, f: SystemField): SettingValue {
    match f
    case ShowFooter => Flag(s.showFooter)
    case ShowMarquee => Flag(s.showMarquee)
    case MarqueeText => Text(s.marqueeText)
    case ShowLottery => Flag(s.showLottery)
    case ShowWeather => Flag(s.showWeather)
    case ShowNews => Flag(s.showNews)
    case PrimaryColor => Text(s.primaryColor)
    case AccentColor => Text(s.accentColor)
    case PlayerOrientation => Orient(s.playerOrientation)
    case LotteryApi => Key(s.lotteryApi)
    case WeatherApi => Key(s.weatherApi)
    case NewsApi => Key(s.newsApi)
  }

  /** The value has the field's type. */
  predicate Fits(f: SystemField, v: SettingValue) {
    match f
    case ShowFooter | ShowMarquee | ShowLottery | ShowWeather | ShowNews => v.Flag?
    case MarqueeText | PrimaryColor | AccentColor => v.Text?
    case PlayerOrientation => v.Orient?
    case LotteryApi | WeatherApi | NewsApi => v.Key?
  }

  /** `handleSettingsChange`: `{ ...prev, [field]: value }`. */
  function WithSetting(s: SystemSettings, f: SystemField, v: SettingValue): (r: SystemSettings)
    requires Fits(f, v)
    ensures Get(r, f) == v
    ensures forall g :: g != f ==> Get(r, g) == Get(s, g)
  {
    match f
    case ShowFooter => s.(showFooter := v.on)
    case ShowMarquee => s.(showMarquee := v.on)
    case MarqueeText => s.(marqueeText := v.text)
    case ShowLottery => s.(showLottery := v.on)
    case ShowWeather => s.(showWeather := v.on)
    case ShowNews => s.(showNews := v.on)
    case PrimaryColor => s.(primaryColor := v.text)
    case AccentColor => s.(accentColor := v.text)
    case PlayerOrientation => s.(playerOrientation := v.o)
    case LotteryApi => s.(lotteryApi := v.key)
    case WeatherApi => s.(weatherApi := v.key)
    case NewsApi => s.(newsApi := v.key)
  }

  /** Every field's current value fits it. */
  lemma GetFits(s: SystemSettings, f: SystemField)
    ensures Fits(f, Get(s, f))
  {
  }

  /** Two settings objects that agree on every field are equal. */
  lemma SettingsByFields(a: SystemSettings, b: SystemSettings)
    requires forall f :: Get(a, f) == Get(b, f)
    ensures a == b
  {
    assert Get(a, ShowFooter) == Get(b, ShowFooter);
    assert Get(a, ShowMarquee) == Get(b, ShowMarquee);
    assert Get(a, MarqueeText) == Get(b, MarqueeText);
    assert Get(a, ShowLottery) == Get(b, ShowLottery);
    assert Get(a, ShowWeather) == Get(b, ShowWeather);
    assert Get(a, ShowNews) == Get(b, ShowNews);
    assert Get(a, PrimaryColor) == Get(b, PrimaryColor);
    assert Get(a, AccentColor) == Get(b, AccentColor);
    assert Get(a, PlayerOrientation) == Get(b, PlayerOrientation);
    assert Get(a, LotteryApi) == Get(b, LotteryApi);
    assert Get(a, WeatherApi) == Get(b, WeatherApi);
    assert Get(a, NewsApi) == Get(b, NewsApi);
  }

  /** Changes to two different fields commute. */
  lemma ChangesCommute(s: SystemSettings, f: SystemField, v: SettingValue, g: SystemField, w: SettingValue)
    requires Fits(f, v) && Fits(g, w) && f != g
    ensures WithSetting(WithSetting(s, f, v), g, w) == WithSetting(WithSetting(s, g, w), f, v)
  {
    var sf, sg := WithSetting(s, f, v), WithSetting(s, g, w);
    var a, b := WithSetting(sf, g, w), WithSetting(sg, f, v);
    forall h ensures Get(a, h) == Get(b, h) {
      if h == f {
        assert Get(a, h) == Get(sf, h) == v;
      } else if h == g {
        assert Get(b, h) == Get(sg, h) == w;
      } else {
        assert Get(a, h) == Get(sf, h) == Get(s, h) == Get(sg, h) == Get(b, h);
      }
    }
    SettingsByFields(a, b);
  }

  /** Writing a field's current value back changes nothing. */
  lemma SameValueNoChange(s: SystemSettings, f: SystemField)
    ensures Fits(f, Get(s, f)) && WithSetting(s, f, Get(s, f)) == s
  {
    GetFits(s, f);
    var r := WithSetting(s, f, Get(s, f));
    forall h ensures Get(r, h) == Get(s, h) {
    }
    SettingsByFields(r, s);
  }

  /* ---------------- Media folders ---------------- */

  lemma LowerIdempotentAll()
    ensures forall s :: Lower(Lower(s)) == Lower(s)
  {
    forall s ensures Lower(Lower(s)) == Lower(s) {
      LowerIdempotent(s);
    }
  }

  /** `refreshMediaFolders`: the eight folders in fixed order, each holding
      what the store files under its (lower-cased) name. */
  function FolderView(store: FileStorage): (r: seq<MediaFolder>)
    reads store
    requires store.Valid()
    ensures |r| == |MediaFolders.FolderNames| == 8
    ensures forall i :: 0 <= i < |r| ==>
              r[i].name == MediaFolders.FolderNames[i] &&
              r[i].media == store.FilesByFolder(MediaFolders.FolderNames[i])
    ensures forall i, x :: 0 <= i < |r| && x in r[i].media ==> x in store.AllFiles()
  {
    LowerIdempotentAll();
    var names, data := MediaFolders.FolderNames, store.data;
    var r := seq(|names|, i requires 0 <= i < |names| =>
      MediaFolder(names[i], if Lower(names[i]) in data then data[Lower(names[i])] else []));
    assert forall i :: 0 <= i < |r| ==> r[i].media == store.FilesByFolder(Lower(names[i]));
    r
  }

  /** The test `f.id === mediaId`. */
  function WithId(id: string): MediaFile -> bool {
    (f: MediaFile) => f.id == id
  }

  /** The store change behind `toggleMediaVisibility` and `updateMediaDay`:
      the first record with the id (in `getAllFiles` order), changed by
      `change`, goes through `updateFile`; an unknown id changes nothing. */
  method UpdateStored(store: FileStorage, mediaId: string, change: MediaFile -> MediaFile)
    returns (found: Option<MediaFile>)
    requires store.Valid()
    modifies store
    ensures store.Valid()
    ensures found == Find(old(store.AllFiles()), WithId(mediaId))
    ensures found.None? ==> unchanged(store)
    ensures found.Some? ==>
              found.value.id == mediaId && found.value in old(store.AllFiles()) &&
              store.keys == KeysWith(old(store.keys), old(store.data), Lower(change(found.value).folder)) &&
              store.data == Updated(old(store.data), mediaId, change(found.value))
  {
    var all := store.GetAllFiles();
    found := Find(all, WithId(mediaId));
    if found.Some? {
      store.UpdateFile(mediaId, change(found.value));
    }
  }

  function ToggleHidden(f: MediaFile): (r: MediaFile)
    ensures r.hidden == !f.hidden && r.(hidden := f.hidden) == f
  {
    f.(hidden := !f.hidden)
  }

  function MoveToDay(newDay: string): MediaFile -> MediaFile {
    (f: MediaFile) => f.(folder := Lower(newDay))
  }

  /** The admin page's state. */
  class AdminPage {
    var isAuthenticated: bool
    var adminPassword: string
    var newClient: ClientForm
    var editingClient: Option<Client>
    var mediaFolders: seq<MediaFolder>
    var clients: seq<Client>
    var settings: SystemSettings
    const store: FileStorage

    ghost predicate Valid()
      reads this, store
    {
      store.Valid()
    }

    /** Mounting the page: the saved client list and settings (or the
        defaults), the saved admin password when there is a non-empty one, and
        the folder view of the store. */
    constructor (store: FileStorage, savedClients: Option<seq<Client>>,
                 savedSettings: Option<SystemSettings>, savedPassword: Option<string>)
      requires store.Valid()
      ensures Valid() && this.store == store
      ensures !isAuthenticated && newClient == EmptyForm && editingClient.None?
      ensures clients == (if savedClients.Some? then savedClients.value else [])
      ensures settings == (if savedSettings.Some? then savedSettings.value else InitialSettings)
      ensures adminPassword == (if savedPassword.Some? && savedPassword.value != "" then savedPassword.value else "")
      ensures mediaFolders == FolderView(store)
    {
      this.store := store;
      isAuthenticated := false;
      newClient := EmptyForm;
      editingClient := None;
      clients := if savedClients.Some? then savedClients.value else [];
      settings := if savedSettings.Some? then savedSettings.value else InitialSettings;
      adminPassword := if savedPassword.Some? && savedPassword.value != "" then savedPassword.value else "";
      mediaFolders := FolderView(store);
    }

    /** `handleAdminLogin`: the fixed password "admin123" opens the panel. */
    method HandleAdminLogin()
      modifies this
      ensures isAuthenticated == (old(isAuthenticated) || adminPassword == AdminPassword)
      ensures unchanged(this`adminPassword, this`newClient, this`editingClient, this`mediaFolders,
                        this`clients, this`settings)
    {
      if adminPassword == AdminPassword {
        isAuthenticated := true;
      }
    }

    /** `handleAddClient`, with `id` standing for `Date.now().toString()`. */
    method AddClient(id: string)
      modifies this
      ensures clients == ClientsAfterAdd(old(clients), old(newClient), id)
      ensures newClient == (if ClientManager.CanSave(old(newClient)) then EmptyForm else old(newClient))
      ensures unchanged(this`isAuthenticated, this`adminPassword, this`editingClient,
                        this`mediaFolders, this`settings)
    {
      if !ClientManager.CanSave(newClient) {
        return;
      }
      clients := ClientsAfterAdd(clients, newClient, id);
      newClient := EmptyForm;
    }

    method DeleteClient(id: string)
      modifies this
      ensures clients == ClientsAfterDelete(old(clients), id)
      ensures unchanged(this`isAuthenticated, this`adminPassword, this`newClient,
                        this`editingClient, this`mediaFolders, this`settings)
    {
      clients := ClientsAfterDelete(clients, id);
    }

    /** `handleEditClient`: open the edit form on a client. */
    method EditClient(c: Client)
      modifies this
      ensures editingClient == Some(c)
      ensures unchanged(this`isAuthenticated, this`adminPassword, this`newClient,
                        this`mediaFolders, this`clients, this`settings)
    {
      editingClient := Some(c);
    }

    /** `handleUpdateClient`: replace by id and close the edit form. */
    method UpdateClient(updated: Client)
      modifies this
      ensures clients == ClientsAfterUpdate(old(clients), updated)
      ensures editingClient.None?
      ensures unchanged(this`isAuthenticated, this`adminPassword, this`newClient,
                        this`mediaFolders, this`settings)
    {
      clients := ClientsAfterUpdate(clients, updated);
      editingClient := None;
    }

    /** `handleCancelEdit`. */
    method CancelEdit()
      modifies this
      ensures editingClient.None?
      ensures unchanged(this`isAuthenticated, this`adminPassword, this`newClient,
                        this`mediaFolders, this`clients, this`settings)
    {
      editingClient := None;
    }

    /** `handleNewClientChange`. */
    method NewClientChange(field: ClientField, value: string)
      requires field != IdField
      modifies this
      ensures newClient == FormWith(old(newClient), field, value)
      ensures unchanged(this`isAuthenticated, this`adminPassword, this`editingClient,
                        this`mediaFolders, this`clients, this`settings)
    {
      newClient := FormWith(newClient, field, value);
    }

    /** `handleEditingClientChange`: ignored while no client is being edited. */
    method EditingClientChange(field: ClientField, value: string)
      modifies this
      ensures old(editingClient).None? ==> editingClient.None?
      ensures old(editingClient).Some? ==> editingClient == Some(ClientWith(old(editingClient).value, field, value))
      ensures unchanged(this`isAuthenticated, this`adminPassword, this`newClient,
                        this`mediaFolders, this`clients, this`settings)
    {
      if editingClient.Some? {
        editingClient := Some(ClientWith(editingClient.value, field, value));
      }
    }

    /** `handleSettingsChange`. */
    method SettingsChange(field: SystemField, value: SettingValue)
      requires Fits(field, value)
      modifies this
      ensures settings == WithSetting(old(settings), field, value)
      ensures unchanged(this`isAuthenticated, this`adminPassword, this`newClient,
                        this`editingClient, this`mediaFolders, this`clients)
    {
      settings := WithSetting(settings, field, value);
    }

    /** `refreshMediaFolders`. */
    method RefreshMediaFolders()
      requires Valid()
      modifies this
      ensures Valid() && mediaFolders == FolderView(store)
      ensures unchanged(this`isAuthenticated, this`adminPassword, this`newClient,
                        this`editingClient, this`clients, this`settings)
    {
      mediaFolders := FolderView(store);
    }

    /** `deleteMedia`: delete every record with the id, then refresh. */
    method DeleteMedia(folderName: string, mediaId: string)
      requires Valid()
      modifies this, store
      ensures Valid()
      ensures store.keys == old(store.keys) && store.data == DeletedAll(old(store.data), mediaId)
      ensures mediaFolders == FolderView(store)
      ensures unchanged(this`isAuthenticated, this`adminPassword, this`newClient,
                        this`editingClient, this`clients, this`settings)
    {
      store.DeleteFile(mediaId);
      RefreshMediaFolders();
    }

    /** `toggleMediaVisibility`: flip `hidden` on the first record with the id
        and refresh; an unknown id changes nothing. */
    method ToggleMediaVisibility(folderName: string, mediaId: string)
      requires Valid()
      modifies this, store
      ensures Valid()
      ensures var found := Find(old(store.AllFiles()), WithId(mediaId));
        (found.None? ==> store.data == old(store.data) && mediaFolders == old(mediaFolders)) &&
        (found.Some? ==> store.keys == KeysWith(old(store.keys), old(store.data), Lower(found.value.folder)) &&
                         store.data == Updated(old(store.data), mediaId, ToggleHidden(found.value)) &&
                         mediaFolders == FolderView(store))
      ensures var found := Find(old(store.AllFiles()), WithId(mediaId));
        found.None? ==> unchanged(store)
      ensures unchanged(this`isAuthenticated, this`adminPassword, this`newClient,
                        this`editingClient, this`clients, this`settings)
    {
      var found := UpdateStored(store, mediaId, ToggleHidden);
      if found.Some? {
        RefreshMediaFolders();
      }
    }

    /** `updateMediaDay`: refile the first record with the id under the
        lower-cased day and refresh; an unknown id changes nothing. */
    method UpdateMediaDay(folderName: string, mediaId: string, newDay: string)
      requires Valid()
      modifies this, store
      ensures Valid()
      ensures var found := Find(old(store.AllFiles()), WithId(mediaId));
        (found.None? ==> store.data == old(store.data) && mediaFolders == old(mediaFolders)) &&
        (found.Some? ==> store.keys == KeysWith(old(store.keys), old(store.data), Lower(newDay)) &&
                         store.data == Updated(old(store.data), mediaId, found.value.(folder := Lower(newDay))) &&
                         mediaFolders == FolderView(store))
      ensures var found := Find(old(store.AllFiles()), WithId(mediaId));
        found.None? ==> unchanged(store)
      ensures unchanged(this`isAuthenticated, this`adminPassword, this`newClient,
                        this`editingClient, this`clients, this`settings)
      ensures var found := Find(old(store.AllFiles()), WithId(mediaId));
        found.Some? ==> var r := store.FilesByFolder(newDay);
          |r| > 0 && r[|r| - 1] == found.value.(folder := Lower(newDay))
    {
      var found := UpdateStored(store, mediaId, MoveToDay(newDay));
      if found.Some? {
        ghost var rec := found.value.(folder := Lower(newDay));
        UpdatedMovesRecord(old(store.data), mediaId, rec);
        LowerIdempotent(newDay);
        RefreshMediaFolders();
      }
    }
  }
}
