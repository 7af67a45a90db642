/** A saved alert as an object whose attributes `update_alert` and the trigger loop set in place. */
module AlertRecord {
  import opened Common

  /** What an alert watches for. */
  datatype AlertType = Address | Postcode | Ward | Keyword | Policy | DevelopmentType | Applicant | Agent

  /** How urgent an alert's notifications are. */
  datatype Priority = Low | Medium | High | Urgent

  /** What matching reads of an alert. */
  datatype AlertView = AlertView(id: string, alertType: AlertType, value: string, isActive: bool)

  /** An attribute value given to `update_alert`, by the type of the attribute it can set. */
  datatype FieldValue =
    | Text(text: string) | Flag(flag: bool) | Number(number: int) | Kind(kind: AlertType) | Level(level: Priority)
    | MaybeNumber(maybe: Option<int>) | Meta(meta: map<string, string>)

  function TextOr(updates: map<string, FieldValue>, key: string, d: string): string
  {
    if key in updates && updates[key].Text? then updates[key].text else d
  }

  function FlagOr(updates: map<string, FieldValue>, key: string, d: bool): bool
  {
    if key in updates && updates[key].Flag? then updates[key].flag else d
  }

  function NumberOr(updates: map<string, FieldValue>, key: string, d: int): int
  {
    if key in updates && updates[key].Number? then updates[key].number else d
  }

  function MaybeOr(updates: map<string, FieldValue>, key: string, d: Option<int>): Option<int>
  {
    if key in updates && updates[key].MaybeNumber? then updates[key].maybe else d
  }

  /** The attributes an alert has, which `update_alert` may set. */
  const AlertAttributes: set<string> := {"id", "user_id", "name", "alert_type", "value", "is_active", "priority",
    "notify_email", "notify_push", "radius_meters", "include_similar", "created_at", "last_triggered",
    "trigger_count", "metadata"}

  /** The attributes of an alert, as one value. */
  datatype AlertFields = AlertFields(id: string, userId: string, name: string, alertType: AlertType, value: string,
    isActive: bool, priority: Priority, notifyEmail: bool, notifyPush: bool, radiusMeters: Option<int>,
    includeSimilar: bool, createdAt: int, lastTriggered: Option<int>, triggerCount: int, metadata: map<string, string>)

  /**
   * The attributes after the loop of `update_alert`: each key naming an
   * attribute, with a value of that attribute's type, sets it; any other
   * key is ignored.
   */
  function Updated(f: AlertFields, updates: map<string, FieldValue>): (r: AlertFields)
  {
    f.(id := TextOr(updates, "id", f.id), userId := TextOr(updates, "user_id", f.userId),
       name := TextOr(updates, "name", f.name),
       alertType := if "alert_type" in updates && updates["alert_type"].Kind? then updates["alert_type"].kind else f.alertType,
       value := TextOr(updates, "value", f.value), isActive := FlagOr(updates, "is_active", f.isActive),
       priority := if "priority" in updates && updates["priority"].Level? then updates["priority"].level else f.priority,
       notifyEmail := FlagOr(updates, "notify_email", f.notifyEmail), notifyPush := FlagOr(updates, "notify_push", f.notifyPush),
       radiusMeters := MaybeOr(updates, "radius_meters", f.radiusMeters),
       includeSimilar := FlagOr(updates, "include_similar", f.includeSimilar),
       createdAt := NumberOr(updates, "created_at", f.createdAt),
       lastTriggered := MaybeOr(updates, "last_triggered", f.lastTriggered),
       triggerCount := NumberOr(updates, "trigger_count", f.triggerCount),
       metadata := if "metadata" in updates && updates["metadata"].Meta? then updates["metadata"].meta else f.metadata)
  }

  /** Keys that name no attribute change nothing. */
  lemma UpdatedIgnoresOthers(f: AlertFields, updates: map<string, FieldValue>)
    requires updates.Keys !! AlertAttributes
    ensures Updated(f, updates) == f
  {
  }

  /** Applying the same updates twice is applying them once. */
  lemma UpdatedIdempotent(f: AlertFields, updates: map<string, FieldValue>)
    ensures Updated(Updated(f, updates), updates) == Updated(f, updates)
  {
  }

  /** An alert configuration; `update_alert` and the trigger loop change its fields in place. */
  class Alert {
    var id: string
    var userId: string
    var name: string
    var alertType: AlertType
    var value: string
    var isActive: bool
    var priority: Priority
    var notifyEmail: bool
    var notifyPush: bool
    var radiusMeters: Option<int>
    var includeSimilar: bool
    var createdAt: int
    var lastTriggered: Option<int>
    var triggerCount: int
    var metadata: map<string, string>

    /** A new alert: active, not similar-matching, never triggered. */
    constructor(id: string, userId: string, name: string, alertType: AlertType, value: string, priority: Priority,
                notifyEmail: bool, notifyPush: bool, radiusMeters: Option<int>, metadata: map<string, string>, now: int)
      ensures this.id == id && this.userId == userId && this.name == name && this.alertType == alertType
      ensures this.value == value && this.priority == priority && this.notifyEmail == notifyEmail
      ensures this.notifyPush == notifyPush && this.radiusMeters == radiusMeters && this.metadata == metadata
      ensures isActive && !includeSimilar && createdAt == now && lastTriggered.None? && triggerCount == 0
    {
      this.id := id;
      this.userId := userId;
      this.name := name;
      this.alertType := alertType;
      this.value := value;
      this.isActive := true;
      this.priority := priority;
      this.notifyEmail := notifyEmail;
      this.notifyPush := notifyPush;
      this.radiusMeters := radiusMeters;
      this.includeSimilar := false;
      this.createdAt := now;
      this.lastTriggered := None;
      this.triggerCount := 0;
      this.metadata := metadata;
    }

    /** What matching reads of this alert. */
    function View(): AlertView
      reads this
    {
      AlertView(id, alertType, value, isActive)
    }

    /** The alert's attributes as one value. */
    function Fields(): AlertFields
      reads this
    {
      AlertFields(id, userId, name, alertType, value, isActive, priority, notifyEmail, notifyPush, radiusMeters,
                  includeSimilar, createdAt, lastTriggered, triggerCount, metadata)
    }

    /** Sets what matching reads and who owns the alert from `f`. */
    method SetMatched(f: AlertFields)
      modifies this
      ensures Fields() == old(Fields()).(id := f.id, userId := f.userId, name := f.name, alertType := f.alertType, value := f.value)
    {
      id := f.id;
      userId := f.userId;
      name := f.name;
      alertType := f.alertType;
      value := f.value;
    }

    /** Sets the activity flag and the delivery settings from `f`. */
    method SetDelivery(f: AlertFields)
      modifies this
      ensures Fields() == old(Fields()).(isActive := f.isActive, priority := f.priority, notifyEmail := f.notifyEmail, notifyPush := f.notifyPush, radiusMeters := f.radiusMeters)
    {
      isActive := f.isActive;
      priority := f.priority;
      notifyEmail := f.notifyEmail;
      notifyPush := f.notifyPush;
      radiusMeters := f.radiusMeters;
    }

    /** Sets the similarity flag, the history and the metadata from `f`. */
    method SetHistory(f: AlertFields)
      modifies this
      ensures Fields() == old(Fields()).(includeSimilar := f.includeSimilar, createdAt := f.createdAt, lastTriggered := f.lastTriggered, triggerCount := f.triggerCount, metadata := f.metadata)
    {
      includeSimilar := f.includeSimilar;
      createdAt := f.createdAt;
      lastTriggered := f.lastTriggered;
      triggerCount := f.triggerCount;
      metadata := f.metadata;
    }

    /** Sets every attribute from `f`. */
    method SetFields(f: AlertFields)
      modifies this
      ensures Fields() == f
    {
      SetMatched(f);
      SetDelivery(f);
      SetHistory(f);
    }

    /** The loop of `update_alert`, applied to this alert in place. */
    method Apply(updates: map<string, FieldValue>)
      modifies this
      ensures Fields() == Updated(old(Fields()), updates)
    {
      SetFields(Updated(Fields(), updates));
    }
  }
}
