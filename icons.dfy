/** The lucide-react icons the components choose between. */
module Icons {
  datatype Icon =
    | Wifi | Coffee | Utensils | Car | Dumbbell | Waves | Briefcase
    | Clock | Plane | Shirt | Users | Ban | Check
}
