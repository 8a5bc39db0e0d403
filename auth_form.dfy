/** The login form's controller: the page-load pre-fill, the key-visibility toggle,
    the status line with its shake cue, and the submit handler that validates the
    fields and saves the credential to one of the two browser stores. */
module AuthForm {
  import opened Validation
  import opened Storage

  /** Input types the visibility toggle switches between. */
  const PasswordType: string := "password"
  const TextType: string := "text"

  /** Status kinds, and the class prefix the status line always carries. */
  const ErrorStatus: string := "error"
  const SuccessStatus: string := "success"
  const StatusClassPrefix: string := "status-message "

  /** User-visible messages (Vietnamese, as shown by the page). */
  const MissingFieldsMessage: string := "Vui lòng nhập đầy đủ thông tin kết nối."
  const BadSchemeMessage: string := "URL không hợp lệ. Phải bắt đầu bằng https://"
  const SuccessMessage: string := "Kết nối thành công! Đang vào hệ thống..."
  const StorageErrorMessage: string := "Lỗi lưu trữ cục bộ."

  /** The two glyphs of the toggle button; their markup is not modelled. The names
      follow the markup (the glyph for the `text` state is drawn with a diagonal
      slash), not the comments beside it, which call that one the open eye. */
  datatype EyeIcon = OpenEye | SlashedEye

  /** The input type after one click of the toggle: a masked field becomes plain
      text, and anything else (plain text included) becomes masked. */
  function ToggledType(current: string): (next: string)
    ensures next == TextType <==> current == PasswordType
    ensures next == PasswordType <==> current != PasswordType
  {
    if current == PasswordType then TextType else PasswordType
  }

  /** The glyph shown for an input type: the slashed eye while the key is in clear. */
  function IconFor(inputType: string): (icon: EyeIcon) {
    if inputType == TextType then SlashedEye else OpenEye
  }

  /** Two clicks from either state give back the state and the glyph. */
  lemma ToggleTwiceRestores(t: string)
    requires t == PasswordType || t == TextType
    ensures ToggledType(ToggledType(t)) == t
    ensures IconFor(ToggledType(ToggledType(t))) == IconFor(t)
  {
  }

  /** The message shown for a refused submission. */
  function RejectionMessage(v: Verdict): (msg: string)
    requires !v.Accepted?
  {
    if v.MissingFields? then MissingFieldsMessage else BadSchemeMessage
  }

  /** A completed save decides what the next page load puts in the URL field:
      after a durable save the durable store holds the accepted URL, which is not
      empty, so the field is filled with it; after a session save the durable
      store has no URL, so the field keeps the page's own value. */
  lemma ReloadAfterSave(s: Stores, rawUrl: string, rawKey: string, saveLocally: bool)
    ensures var v := Validate(rawUrl, rawKey);
            v.Accepted? ==>
            var d := Apply(s, SavePlan(v.url, v.key, saveLocally)).durable;
            && (saveLocally ==> UrlKey in d && d[UrlKey] == v.url && d[UrlKey] != "")
            && (!saveLocally ==> UrlKey !in d)
  {
    var v := Validate(rawUrl, rawKey);
    if !v.Accepted? {
      return;
    }
    assert v.url[..|SecureScheme|] == SecureScheme;
    if saveLocally {
      SaveLocallyEffect(s, v.url, v.key);
    } else {
      SaveForSessionEffect(s, v.url, v.key);
    }
  }

  /** The form as the page delivers it, before the script runs. */
  datatype Page = Page(url: string, key: string, keyType: string, icon: EyeIcon,
                       saveLocally: bool, statusText: string, statusClass: string)

  class AuthFormController {
    const durable: KeyValueStore
    const session: KeyValueStore

    // Form state: the two inputs, the key input's type, the toggle glyph, the checkbox.
    var urlValue: string
    var keyValue: string
    var keyType: string
    var icon: EyeIcon
    var saveLocally: bool
    // Status line, and how many times the card has been shaken.
    var statusText: string
    var statusClass: string
    var shakes: nat

    /** The two stores are different objects. */
    ghost predicate Valid() {
      durable != session
    }

    /** What both stores hold now. */
    function Snapshot(): (s: Stores)
      reads durable, session
    {
      Stores(durable.items, session.items)
    }

    /** Page load: the URL input is filled from the durable store when it holds a
        non-empty URL; the key input is never filled from either store. */
    constructor (durable: KeyValueStore, session: KeyValueStore, page: Page)
      requires durable != session
      ensures Valid() && this.durable == durable && this.session == session
      ensures urlValue == (if UrlKey in durable.items && durable.items[UrlKey] != ""
                           then durable.items[UrlKey] else page.url)
      ensures keyValue == page.key
      ensures keyType == page.keyType && icon == page.icon && saveLocally == page.saveLocally
      ensures statusText == page.statusText && statusClass == page.statusClass && shakes == 0
    {
      this.durable := durable;
      this.session := session;
      var savedUrl := durable.GetItem(UrlKey);
      urlValue := if savedUrl.Some? && savedUrl.value != "" then savedUrl.value else page.url;
      keyValue := page.key;
      keyType := page.keyType;
      icon := page.icon;
      saveLocally := page.saveLocally;
      statusText := page.statusText;
      statusClass := page.statusClass;
      shakes := 0;
    }

    /** Click on the toggle: flip the key input's type and show the glyph of the new type. */
    method ToggleKey()
      modifies this`keyType, this`icon
      ensures keyType == ToggledType(old(keyType))
      ensures icon == IconFor(keyType)
    {
      var next := if keyType == PasswordType then TextType else PasswordType;
      keyType := next;
      if next == TextType {
        icon := SlashedEye;
      } else {
        icon := OpenEye;
      }
    }

    /** `showStatus`: set the text and the class; an error also shakes the card, once. */
    method ShowStatus(msg: string, kind: string)
      modifies this`statusText, this`statusClass, this`shakes
      ensures statusText == msg
      ensures statusClass == StatusClassPrefix + kind
      ensures shakes == old(shakes) + (if kind == ErrorStatus then 1 else 0)
    {
      statusText := msg;
      statusClass := StatusClassPrefix + kind;
      if kind == ErrorStatus {
        shakes := shakes + 1;
      }
    }

    /** The save logic: the storage calls of `SavePlan`, in order, stopping at the
        first one the browser refuses. `writes` counts the calls that took effect,
        so the stores are left exactly as that many calls leave them. */
    method SaveCredentials(url: string, key: string, saveLocally: bool)
      returns (ok: bool, ghost writes: nat)
      requires Valid()
      modifies durable, session
      ensures writes <= |SavePlan(url, key, saveLocally)|
      ensures ok <==> writes == |SavePlan(url, key, saveLocally)|
      ensures Snapshot() == Apply(old(Snapshot()), SavePlan(url, key, saveLocally)[..writes])
    {
      ghost var plan := SavePlan(url, key, saveLocally);
      ghost var before := Snapshot();
      assert plan[..0] == [];
      writes := 0;
      if saveLocally {
        ok := durable.SetItem(UrlKey, url);
        if ok {
          ApplyNext(before, plan, 0);
          writes := 1;
          ok := durable.SetItem(DurableApiKeyEntry, key);
        }
        if ok {
          ApplyNext(before, plan, 1);
          writes := 2;
        }
      } else {
        ok := session.SetItem(UrlKey, url);
        if ok {
          ApplyNext(before, plan, 0);
          writes := 1;
          ok := session.SetItem(SessionApiKeyEntry, key);
        }
        if ok {
          ApplyNext(before, plan, 1);
          writes := 2;
          ok := durable.RemoveItem(UrlKey);
        }
        if ok {
          ApplyNext(before, plan, 2);
          writes := 3;
          ok := durable.RemoveItem(DurableApiKeyEntry);
        }
        if ok {
          ApplyNext(before, plan, 3);
          writes := 4;
        }
      }
    }

    /** The submit handler, with the simulated delay taken as elapsed. A refused
        submission shows its error and touches no store; an accepted one saves the
        trimmed values and reports success, or the storage error if a call was refused. */
    method Submit() returns (ghost writes: nat)
      requires Valid()
      modifies this`statusText, this`statusClass, this`shakes, durable, session
      ensures !Validate(old(urlValue), old(keyValue)).Accepted? ==>
        && Snapshot() == old(Snapshot())
        && statusText == RejectionMessage(Validate(old(urlValue), old(keyValue)))
        && statusClass == StatusClassPrefix + ErrorStatus
        && shakes == old(shakes) + 1
      ensures Validate(old(urlValue), old(keyValue)).Accepted? ==>
        var v := Validate(old(urlValue), old(keyValue));
        var plan := SavePlan(v.url, v.key, old(saveLocally));
        && writes <= |plan|
        && Snapshot() == Apply(old(Snapshot()), plan[..writes])
        && (writes == |plan| ==>
              statusText == SuccessMessage && statusClass == StatusClassPrefix + SuccessStatus
              && shakes == old(shakes))
        && (writes < |plan| ==>
              statusText == StorageErrorMessage && statusClass == StatusClassPrefix + ErrorStatus
              && shakes == old(shakes) + 1)
    {
      writes := 0;
      var v := Validate(urlValue, keyValue);
      if !v.Accepted? {
        ShowStatus(RejectionMessage(v), ErrorStatus);
        return;
      }
      var ok;
      ok, writes := SaveCredentials(v.url, v.key, saveLocally);
      if ok {
        ShowStatus(SuccessMessage, SuccessStatus);
      } else {
        ShowStatus(StorageErrorMessage, ErrorStatus);
      }
    }
  }
}
