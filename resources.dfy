/** The scanner resources the client refers to by id, reduced to the fields
    the modelled operations read, and the three fields of a notification the
    poller uses. */
module Resources {
  import opened Json

  datatype User = User(userId: string, email: string)

  /** A target's `target_id` is optional in its record. */
  datatype Target = Target(address: string, targetId: Option<string>)

  datatype Scan = Scan(scanId: string, profileId: string, targetId: string, target: Target)

  datatype ScanProfile = ScanProfile(profileId: string, name: string)

  datatype Notification = Notification(notificationId: string, resourceId: string, typeId: int)

  /** The notification fields the poller reads from one fetched item:
      `notification_id`, `type_id` and `resource_id`. */
  function DecodeNotification(v: Value): (r: Result<Notification>)
    ensures r.Ok? <==>
      v.Object? && "notification_id" in v.fields && v.fields["notification_id"].Str?
      && "type_id" in v.fields && v.fields["type_id"].Int?
      && "resource_id" in v.fields && v.fields["resource_id"].Str?
    ensures r.Ok? ==> forall k :: k in NotificationFields(r.value) ==> v.fields[k] == NotificationFields(r.value)[k]
  {
    if !v.Object? then Fail(TypeError("notification is not a dict"))
    else if "notification_id" !in v.fields then Fail(KeyError("notification_id"))
    else if "type_id" !in v.fields then Fail(KeyError("type_id"))
    else if "resource_id" !in v.fields then Fail(KeyError("resource_id"))
    else
      var id :- AsString(v.fields["notification_id"]);
      var typeId :- if v.fields["type_id"].Int? then Ok(v.fields["type_id"].i) else Fail(TypeError("type_id"));
      var resource :- AsString(v.fields["resource_id"]);
      Ok(Notification(id, resource, typeId))
  }

  /** The wire fields a notification record holds. */
  function NotificationFields(n: Notification): Fields {
    map["notification_id" := Str(n.notificationId), "resource_id" := Str(n.resourceId), "type_id" := Int(n.typeId)]
  }

  /** A notification reads back from its own fields, whatever else the item carries. */
  lemma DecodeNotificationFields(n: Notification, extra: Fields)
    ensures DecodeNotification(Object(extra + NotificationFields(n))) == Ok(n)
  {
  }
}
