/**
 * The display helpers of the client: how many whole days a payment is past
 * due, and the Arabic labels for property types and payment methods.
 */
module Utils {
  import opened Schema

  /** `1000 * 60 * 60 * 24`. */
  const MsPerDay := 86400000

  /**
   * `calculateDaysOverdue`: the time from `due` to `now`, in days rounded up,
   * or 0 when `now` is not past `due`. The clock reading `now` is a parameter.
   */
  function DaysOverdue(due: Date, now: Date): (r: int)
    ensures r >= 0
    ensures r == 0 <==> now <= due
    ensures now > due ==> (r - 1) * MsPerDay < now - due <= r * MsPerDay
  {
    var diffTime := now - due;
    var diffDays := -((-diffTime) / MsPerDay);  // Math.ceil(diffTime / MsPerDay)
    if diffDays > 0 then diffDays else 0
  }

  /** A date exactly `k` whole days in the past is `k` days overdue. */
  lemma WholeDaysOverdue(due: Date, k: nat)
    ensures DaysOverdue(due, due + k * MsPerDay) == k
  {
  }

  /** The later the clock, the more days overdue. */
  lemma DaysOverdueMonotonic(due: Date, now: Date, later: Date)
    requires now <= later
    ensures DaysOverdue(due, now) <= DaysOverdue(due, later)
  {
  }

  /** The labels of the property types, each key mapped to its Arabic name. */
  const PropertyTypeLabels: map<string, string> := map[
    "apartment" := "شقة",
    "villa" := "فيلا",
    "commercial" := "محل تجاري",
    "office" := "مكتب"]

  /** The labels of the payment methods. */
  const PaymentMethodLabels: map<string, string> := map[
    "cash" := "نقد",
    "check" := "شيك",
    "transfer" := "حوالة بنكية"]

  /** `labels[key] || key`: the label when there is a non-empty one, the key itself otherwise. */
  function Label(labels: map<string, string>, key: string): (r: string)
    ensures key in labels && labels[key] != "" ==> r == labels[key]
    ensures !(key in labels && labels[key] != "") ==> r == key
  {
    if key in labels && labels[key] != "" then labels[key] else key
  }

  /** `getPropertyTypeLabel`. */
  function PropertyTypeLabel(propertyType: string): (r: string)
    ensures propertyType in PropertyTypes ==> r == PropertyTypeLabels[propertyType]
    ensures propertyType !in PropertyTypes ==> r == propertyType
    ensures r == propertyType <==> propertyType !in PropertyTypes
  {
    LabelKeys();
    Label(PropertyTypeLabels, propertyType)
  }

  /** `getPaymentMethodLabel`. */
  function PaymentMethodLabel(paymentMethod: string): (r: string)
    ensures paymentMethod in PaymentMethods ==> r == PaymentMethodLabels[paymentMethod]
    ensures paymentMethod !in PaymentMethods ==> r == paymentMethod
    ensures r == paymentMethod <==> paymentMethod !in PaymentMethods
  {
    LabelKeys();
    Label(PaymentMethodLabels, paymentMethod)
  }

  /**
   * The label tables cover exactly the enumerations of the schema, and no
   * label is empty or equal to a key.
   */
  lemma LabelKeys()
    ensures PropertyTypeLabels.Keys == PropertyTypes
    ensures PaymentMethodLabels.Keys == PaymentMethods
    ensures forall k :: k in PropertyTypeLabels ==> PropertyTypeLabels[k] != "" && PropertyTypeLabels[k] != k
    ensures forall k :: k in PaymentMethodLabels ==> PaymentMethodLabels[k] != "" && PaymentMethodLabels[k] != k
  {
  }

  /**
   * Distinct property types get distinct labels, and so do distinct payment
   * methods. (An unknown key that happens to spell a label collides with it.)
   */
  lemma LabelsInjective(a: string, b: string)
    ensures a in PropertyTypes && b in PropertyTypes && a != b ==> PropertyTypeLabel(a) != PropertyTypeLabel(b)
    ensures a in PaymentMethods && b in PaymentMethods && a != b ==> PaymentMethodLabel(a) != PaymentMethodLabel(b)
    ensures PropertyTypeLabel("apartment") == PropertyTypeLabel("شقة")
  {
    LabelKeys();
  }
}
