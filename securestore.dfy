/** The platform secure store, reduced to the one entry the app uses
    (the key 'userToken'). Both the auth session and the HTTP gateway
    hold a reference to the same store object. */
module SecureStore {
  import opened Common

  class CredentialStore {
    /** The persisted token, or `None` when the key holds nothing. */
    var value: Option<string>

    /** A store as found at process start: whatever an earlier run left. */
    constructor (persisted: Option<string>)
      ensures value == persisted
    {
      value := persisted;
    }

    /** `getItemAsync('userToken')` */
    method GetItem() returns (v: Option<string>)
      ensures v == value
    {
      v := value;
    }

    /** `setItemAsync('userToken', token)`: overwrites any earlier value. */
    method SetItem(token: string)
      modifies this
      ensures value == Some(token)
    {
      value := Some(token);
    }

    /** `deleteItemAsync('userToken')`: safe to repeat. */
    method DeleteItem()
      modifies this
      ensures value == None
    {
      value := None;
    }
  }
}
