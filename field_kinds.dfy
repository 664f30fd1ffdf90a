/** Django's model field kinds, as named by `Field.get_internal_type()`. */
module FieldKinds {

  datatype FieldKind =
    | AutoField | BigAutoField | SmallAutoField
    | BinaryField | BooleanField | CharField | DateField | DateTimeField
    | DecimalField | DurationField | FileField | FilePathField | FloatField
    | IntegerField | BigIntegerField | SmallIntegerField
    | GenericIPAddressField | JSONField | NullBooleanField | OneToOneField
    | PositiveBigIntegerField | PositiveIntegerField | PositiveSmallIntegerField
    | SlugField | TextField | TimeField | UUIDField
      /** Any other internal type name (ForeignKey, ManyToManyField, ...). */
    | Other(name: string)

  /** The three auto-incrementing kinds. */
  predicate IsAutoKind(k: FieldKind)
  {
    k == AutoField || k == BigAutoField || k == SmallAutoField
  }

  /** The internal type name, as `get_internal_type()` returns it. */
  function KindName(k: FieldKind): string
  {
    match k
    case AutoField => "AutoField"
    case BigAutoField => "BigAutoField"
    case SmallAutoField => "SmallAutoField"
    case BinaryField => "BinaryField"
    case BooleanField => "BooleanField"
    case CharField => "CharField"
    case DateField => "DateField"
    case DateTimeField => "DateTimeField"
    case DecimalField => "DecimalField"
    case DurationField => "DurationField"
    case FileField => "FileField"
    case FilePathField => "FilePathField"
    case FloatField => "FloatField"
    case IntegerField => "IntegerField"
    case BigIntegerField => "BigIntegerField"
    case SmallIntegerField => "SmallIntegerField"
    case GenericIPAddressField => "GenericIPAddressField"
    case JSONField => "JSONField"
    case NullBooleanField => "NullBooleanField"
    case OneToOneField => "OneToOneField"
    case PositiveBigIntegerField => "PositiveBigIntegerField"
    case PositiveIntegerField => "PositiveIntegerField"
    case PositiveSmallIntegerField => "PositiveSmallIntegerField"
    case SlugField => "SlugField"
    case TextField => "TextField"
    case TimeField => "TimeField"
    case UUIDField => "UUIDField"
    case Other(name) => name
  }

  /** The auto kind an integer kind becomes when its column is an identity column. */
  function AutoVariant(k: FieldKind): FieldKind
  {
    match k
    case IntegerField => AutoField
    case BigIntegerField => BigAutoField
    case SmallIntegerField => SmallAutoField
    case _ => k
  }

  /** Exactly the three integer kinds have an auto variant, and it is the
      matching auto kind. */
  lemma AutoVariantSpec(k: FieldKind)
    ensures IsAutoKind(AutoVariant(k)) <==> k in {IntegerField, BigIntegerField, SmallIntegerField} || IsAutoKind(k)
    ensures !(k in {IntegerField, BigIntegerField, SmallIntegerField}) ==> AutoVariant(k) == k
  {
  }
}
