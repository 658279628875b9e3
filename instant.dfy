/** The GoSend Instant delivery service: its slug, its label and the values
    its settings take when the shipping instance has none stored. */
module InstantService {
  import opened Values

  const Slug: string := "instant"

  const Label: string := "GoSend Instant"

  /** Costs in rupiah, weight in kg, sizes in cm, distance in km. */
  function DefaultSettings(): map<string, SettingValue> {
    map[
      "per_km_cost" := Number(2500),
      "per_km_min_distance" := Number(0),
      "min_cost" := Number(25000),
      "max_cost" := Number(0),
      "max_weight" := Number(20),
      "max_width" := Number(70),
      "max_length" := Number(50),
      "max_height" := Number(50),
      "max_distance" := Number(40)
    ]
  }
}
